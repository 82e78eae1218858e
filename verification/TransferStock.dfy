/** Stock transfers between branches: draft, approval, shipping, receipt, cancellation. */
module TransferStock {
  import opened Basics
  import opened Sums
  import opened StockBooks
  import opened StockData

  datatype ShipLine = ShipLine(item: nat, quantity: Quantity)

  datatype ReceiveLine = ReceiveLine(item: nat, received: nat, damaged: nat)

  datatype Shipping = Shipping(books: Books, items: seq<TransferItem>)

  datatype Receiving = Receiving(session: Session, items: seq<TransferItem>)

  function NewItem(line: (nat, Quantity)): TransferItem {
    TransferItem(line.0, line.1, 0, 0, 0)
  }

  function NewItems(lines: seq<(nat, Quantity)>): seq<TransferItem> {
    seq(|lines|, i requires 0 <= i < |lines| => NewItem(lines[i]))
  }

  /** `create_transfer`; the foreign keys refuse unknown products. */
  function CreateTransfer(db: Db, org: nat, source: nat, dest: nat, lines: seq<(nat, Quantity)>): Result<Db> {
    var _ :- Need(dest != source, BadRequest);
    var _ :- Need(OwnsBranch(db, org, source) && OwnsBranch(db, org, dest), NotFound);
    var _ :- Need(forall line :: line in lines ==> line.0 < |db.products|, Integrity);
    Ok(db.(transfers := db.transfers + [Transfer(org, source, dest, Draft, NewItems(lines))]))
  }

  predicate OwnsTransfer(db: Db, org: nat, id: nat) {
    id < |db.transfers| && db.transfers[id].org == org
  }

  function ApproveTransfer(db: Db, org: nat, id: nat): Result<Db> {
    if !OwnsTransfer(db, org, id) then Err(NotFound)
    else
      var _ :- Need(db.transfers[id].status == Draft, InvalidState);
      Ok(db.(transfers := db.transfers[id := db.transfers[id].(status := Awaiting)]))
  }

  function CancelTransfer(db: Db, org: nat, id: nat): Result<Db> {
    if !OwnsTransfer(db, org, id) then Err(NotFound)
    else
      var t := db.transfers[id];
      var _ :- Need(t.status == Draft || t.status == Awaiting, InvalidState);
      Ok(db.(transfers := db.transfers[id := t.(status := Withdrawn)]))
  }

  function OutPosting(id: nat, source: nat, product: nat, quantity: Quantity): Posting {
    Posting(TransferOut, Cell(source, product), 0 - quantity, TransferRef(id), None)
  }

  function ShipOne(s: Shipping, id: nat, source: nat, line: ShipLine): Result<Shipping> {
    if line.item >= |s.items| then Err(NotFound)
    else
      var item := s.items[line.item];
      var cell := Cell(source, item.product);
      var _ :- Need(line.quantity <= item.requested - item.shipped, BadRequest);
      var _ :- Need(cell in s.books.onHand && s.books.onHand[cell] >= line.quantity, InsufficientStock);
      Ok(Shipping(
           Entered(s.books, OutPosting(id, source, item.product, line.quantity)),
           s.items[line.item := item.(shipped := item.shipped + line.quantity)]))
  }

  function ShipAll(s: Shipping, id: nat, source: nat, lines: seq<ShipLine>): Result<Shipping>
    decreases |lines|
  {
    if lines == [] then Ok(s)
    else
      var s1 :- ShipOne(s, id, source, lines[0]);
      ShipAll(s1, id, source, lines[1..])
  }

  function ShipTransfer(db: Db, org: nat, id: nat, lines: seq<ShipLine>): Result<Db> {
    if !OwnsTransfer(db, org, id) then Err(NotFound)
    else
      var t := db.transfers[id];
      var _ :- Need(t.status == Awaiting, InvalidState);
      var s :- ShipAll(Shipping(db.books, t.items), id, t.source, lines);
      Ok(db.(books := s.books, transfers := db.transfers[id := t.(status := InTransit, items := s.items)]))
  }

  function InPosting(id: nat, dest: nat, product: nat, quantity: int): Posting {
    Posting(TransferIn, Cell(dest, product), quantity, TransferRef(id), None)
  }

  function DamagePosting(id: nat, dest: nat, product: nat, quantity: int): Posting {
    Posting(Damage, Cell(dest, product), 0 - quantity, TransferRef(id), None)
  }

  /** A damage movement starts from the balance the same line has just credited, and from 0
      when the line credits nothing; the CHECK on `quantity_after` then refuses the flush. */
  function DamageOne(s: Session, line: ReceiveLine, p: Posting): Session {
    if line.damaged == 0 then s
    else if line.received == 0 || !Legal(s.books, p) then s.(broken := true)
    else s.(books := Entered(s.books, p))
  }

  function ReceiveOne(r: Receiving, id: nat, dest: nat, line: ReceiveLine): Result<Receiving> {
    if line.item >= |r.items| then Err(NotFound)
    else
      var item := r.items[line.item];
      var _ :- Need(line.received + line.damaged <= item.shipped - item.received, BadRequest);
      var s := if line.received == 0 then r.session
               else Credited(r.session, InPosting(id, dest, item.product, line.received));
      Ok(Receiving(
           DamageOne(s, line, DamagePosting(id, dest, item.product, line.damaged)),
           r.items[line.item := item.(received := item.received + line.received,
                                      damaged := item.damaged + line.damaged)]))
  }

  function ReceiveAll(r: Receiving, id: nat, dest: nat, lines: seq<ReceiveLine>): Result<Receiving>
    decreases |lines|
  {
    if lines == [] then Ok(r)
    else
      var r1 :- ReceiveOne(r, id, dest, lines[0]);
      ReceiveAll(r1, id, dest, lines[1..])
  }

  /** The CHECK constraints on transfer items. */
  predicate ItemStorable(item: TransferItem) {
    0 <= item.received && 0 <= item.damaged && item.received + item.damaged <= item.shipped <= item.requested
  }

  predicate ItemsStorable(items: seq<TransferItem>) {
    forall item :: item in items ==> ItemStorable(item)
  }

  function ReceiveTransfer(db: Db, org: nat, id: nat, lines: seq<ReceiveLine>): Result<Db> {
    if !OwnsTransfer(db, org, id) then Err(NotFound)
    else
      var t := db.transfers[id];
      var _ :- Need(t.status == InTransit, InvalidState);
      var r :- ReceiveAll(Receiving(Session(db.books, {}, false), t.items), id, t.dest, lines);
      var _ :- Need(!r.session.broken && ItemsStorable(r.items), Integrity);
      Ok(db.(books := r.session.books,
             transfers := db.transfers[id := t.(status := Arrived, items := r.items)]))
  }

  // ---- What the loops move ----

  /** Units of a product that left the source and have not been received. */
  function OnTheWay(product: nat): TransferItem -> int {
    (item: TransferItem) => if item.product == product then item.shipped - item.received else 0
  }

  function TransitOf(product: nat): Transfer -> int {
    (t: Transfer) => Sum(t.items, OnTheWay(product))
  }

  function Transit(transfers: seq<Transfer>, product: nat): int {
    Sum(transfers, TransitOf(product))
  }

  lemma {:induction false} ShipAllMoves(s: Shipping, id: nat, source: nat, lines: seq<ShipLine>)
    returns (ps: seq<Posting>)
    requires ShipAll(s, id, source, lines).Ok?
    requires ItemsStorable(s.items)
    ensures var r := ShipAll(s, id, source, lines).value;
      && LegalAll(s.books, ps) && r.books == EnteredAll(s.books, ps)
      && ItemsStorable(r.items)
      && forall product :: Sum(r.items, OnTheWay(product))
          == Sum(s.items, OnTheWay(product)) - Sum(ps, TransferOf(product))
    ensures forall p :: p in ps ==> p.kind.TransferOut? && p.change < 0 && p.reference.TransferRef?
    decreases |lines|
  {
    if lines == [] {
      ps := [];
    } else {
      var line := lines[0];
      var item := s.items[line.item];
      var item1 := item.(shipped := item.shipped + line.quantity);
      var s1 := ShipOne(s, id, source, line).value;
      var p := OutPosting(id, source, item.product, line.quantity);
      assert ItemStorable(item);
      var rest := ShipAllMoves(s1, id, source, lines[1..]);
      ps := [p] + rest;
      assert ps[1..] == rest;
      forall product ensures Sum(s1.items, OnTheWay(product))
          == Sum(s.items, OnTheWay(product)) - TransferOf(product)(p)
      {
        SumUpdate(s.items, line.item, item1, OnTheWay(product));
      }
      forall product ensures Sum(ps, TransferOf(product)) == TransferOf(product)(p) + Sum(rest, TransferOf(product)) {
        SumFirst(ps, TransferOf(product));
      }
    }
  }

  lemma {:induction false} ReceiveAllStaysBroken(r: Receiving, id: nat, dest: nat, lines: seq<ReceiveLine>)
    requires r.session.broken && ReceiveAll(r, id, dest, lines).Ok?
    ensures ReceiveAll(r, id, dest, lines).value.session.broken
    decreases |lines|
  {
    if lines != [] {
      ReceiveAllStaysBroken(ReceiveOne(r, id, dest, lines[0]).value, id, dest, lines[1..]);
    }
  }

  /** The postings of one receipt line, none of them for an empty line. */
  function LinePostings(id: nat, dest: nat, product: nat, line: ReceiveLine): seq<Posting> {
    (if line.received == 0 then [] else [InPosting(id, dest, product, line.received)])
    + (if line.damaged == 0 then [] else [DamagePosting(id, dest, product, line.damaged)])
  }

  lemma ReceiveOneMoves(r: Receiving, id: nat, dest: nat, line: ReceiveLine)
    requires ReceiveOne(r, id, dest, line).Ok?
    requires !ReceiveOne(r, id, dest, line).value.session.broken
    requires Stocked(r.session.books)
    ensures var ps := LinePostings(id, dest, r.items[line.item].product, line);
      var r1 := ReceiveOne(r, id, dest, line).value;
      && LegalAll(r.session.books, ps) && r1.session.books == EnteredAll(r.session.books, ps)
      && Stocked(r1.session.books)
      && forall product :: Sum(r1.items, OnTheWay(product))
          == Sum(r.items, OnTheWay(product)) - Sum(ps, TransferOf(product))
  {
    var item := r.items[line.item];
    var ps := LinePostings(id, dest, item.product, line);
    var credit := InPosting(id, dest, item.product, line.received);
    var memo := DamagePosting(id, dest, item.product, line.damaged);
    if line.received > 0 && line.damaged > 0 {
      var b1 := Entered(r.session.books, credit);
      assert ps == [credit, memo] && ps[1..] == [memo] && [memo][1..] == [];
      assert EnteredAll(b1, [memo]) == Entered(b1, memo);
    } else if line.received > 0 {
      assert ps == [credit] && ps[1..] == [];
    } else {
      assert ps == [];
    }
    var item1 := item.(received := item.received + line.received, damaged := item.damaged + line.damaged);
    forall product
      ensures Sum(r.items[line.item := item1], OnTheWay(product))
           == Sum(r.items, OnTheWay(product)) - Sum(ps, TransferOf(product))
    {
      SumUpdate(r.items, line.item, item1, OnTheWay(product));
      if ps != [] {
        SumFirst(ps, TransferOf(product));
        if ps[1..] != [] {
          SumFirst(ps[1..], TransferOf(product));
        }
      }
    }
  }

  lemma {:induction false} ReceiveAllMoves(r: Receiving, id: nat, dest: nat, lines: seq<ReceiveLine>)
    returns (ps: seq<Posting>)
    requires ReceiveAll(r, id, dest, lines).Ok?
    requires !ReceiveAll(r, id, dest, lines).value.session.broken
    requires Stocked(r.session.books)
    ensures var r1 := ReceiveAll(r, id, dest, lines).value;
      && LegalAll(r.session.books, ps) && r1.session.books == EnteredAll(r.session.books, ps)
      && forall product :: Sum(r1.items, OnTheWay(product))
          == Sum(r.items, OnTheWay(product)) - Sum(ps, TransferOf(product))
    ensures forall p :: p in ps ==> (p.kind.TransferIn? || p.kind.Damage?) && p.reference.TransferRef?
    decreases |lines|
  {
    if lines == [] {
      ps := [];
    } else {
      var r1 := ReceiveOne(r, id, dest, lines[0]).value;
      if r1.session.broken {
        ReceiveAllStaysBroken(r1, id, dest, lines[1..]);
      }
      ReceiveOneMoves(r, id, dest, lines[0]);
      var rest := ReceiveAllMoves(r1, id, dest, lines[1..]);
      var here := LinePostings(id, dest, r.items[lines[0].item].product, lines[0]);
      ps := here + rest;
      EnteredConcat(r.session.books, here, rest);
      forall product ensures Sum(ps, TransferOf(product))
          == Sum(here, TransferOf(product)) + Sum(rest, TransferOf(product)) {
        SumConcat(here, rest, TransferOf(product));
      }
    }
  }

  // ---- When the loops succeed ----

  function ShippedOf(item: nat): ShipLine -> int {
    (line: ShipLine) => if line.item == item then line.quantity else 0
  }

  /** What a shipment takes of one product. */
  function ShippedProduct(items: seq<TransferItem>, product: nat): ShipLine -> int {
    (line: ShipLine) => if line.item < |items| && items[line.item].product == product then line.quantity else 0
  }

  ghost predicate CanShip(b: Books, items: seq<TransferItem>, source: nat, lines: seq<ShipLine>) {
    && (forall line :: line in lines ==> line.item < |items|)
    && (forall i :: 0 <= i < |items| ==>
        Sum(lines, ShippedOf(i)) <= items[i].requested - items[i].shipped || Sum(lines, ShippedOf(i)) == 0)
    && (forall product :: Sum(lines, ShippedProduct(items, product)) > 0 ==>
          Cell(source, product) in b.onHand
          && Sum(lines, ShippedProduct(items, product)) <= b.onHand[Cell(source, product)])
  }

  /** The first line and the rest, per item and per product. */
  lemma ShipSums(items: seq<TransferItem>, items1: seq<TransferItem>, lines: seq<ShipLine>)
    requires lines != [] && |items1| == |items|
    requires forall i :: 0 <= i < |items| ==> items1[i].product == items[i].product
    ensures forall i: nat :: Sum(lines, ShippedOf(i)) == ShippedOf(i)(lines[0]) + Sum(lines[1..], ShippedOf(i))
                             && Sum(lines[1..], ShippedOf(i)) >= 0
    ensures forall product :: Sum(lines, ShippedProduct(items, product))
                              == ShippedProduct(items, product)(lines[0])
                                  + Sum(lines[1..], ShippedProduct(items1, product))
                              && Sum(lines[1..], ShippedProduct(items1, product)) >= 0
  {
    var rest := lines[1..];
    forall i: nat
      ensures Sum(lines, ShippedOf(i)) == ShippedOf(i)(lines[0]) + Sum(rest, ShippedOf(i))
          && Sum(rest, ShippedOf(i)) >= 0
    {
      SumFirst(lines, ShippedOf(i));
      SumNonNegative(rest, ShippedOf(i));
    }
    forall product
      ensures Sum(lines, ShippedProduct(items, product))
           == ShippedProduct(items, product)(lines[0]) + Sum(rest, ShippedProduct(items1, product))
      ensures Sum(rest, ShippedProduct(items1, product)) >= 0
    {
      SumFirst(lines, ShippedProduct(items, product));
      SumAgree(rest, ShippedProduct(items, product), ShippedProduct(items1, product));
      SumNonNegative(rest, ShippedProduct(items1, product));
    }
  }

  /** A shipment goes through exactly when, over all its lines together, no item exceeds what
      was requested of it and no product exceeds the stock of the source branch. */
  lemma {:induction false} ShipsExactlyWhenCovered(s: Shipping, id: nat, source: nat, lines: seq<ShipLine>)
    ensures ShipAll(s, id, source, lines).Ok? <==> CanShip(s.books, s.items, source, lines)
    decreases |lines|
  {
    if lines == [] {
      return;
    }
    var line, rest := lines[0], lines[1..];
    if line.item >= |s.items| {
      assert line in lines;
      return;
    }
    var item := s.items[line.item];
    var items1 := s.items[line.item := item.(shipped := item.shipped + line.quantity)];
    ShipSums(s.items, items1, lines);
    if CanShip(s.books, s.items, source, lines) {
      assert Sum(lines, ShippedOf(line.item)) >= line.quantity;
      assert Sum(lines, ShippedProduct(s.items, item.product)) >= line.quantity;
    }
    var first := ShipOne(s, id, source, line);
    if first.Ok? {
      ShipsExactlyWhenCovered(first.value, id, source, rest);
      ShipSplit(s.books, s.items, id, source, lines);
    }
  }

  /** One step of it: after the first line, the rest is covered exactly when the whole was. */
  lemma ShipSplit(b: Books, items: seq<TransferItem>, id: nat, source: nat, lines: seq<ShipLine>)
    requires lines != []
    requires ShipOne(Shipping(b, items), id, source, lines[0]).Ok?
    ensures var s1 := ShipOne(Shipping(b, items), id, source, lines[0]).value;
      CanShip(b, items, source, lines) <==> CanShip(s1.books, s1.items, source, lines[1..])
  {
    var line, rest := lines[0], lines[1..];
    var s1 := ShipOne(Shipping(b, items), id, source, line).value;
    ShipSums(items, s1.items, lines);
    assert forall l :: l in lines <==> l == line || l in rest;
  }

  // ---- When a receipt is accepted ----

  function ReportedOf(item: nat): ReceiveLine -> int {
    (line: ReceiveLine) => if line.item == item then line.received + line.damaged else 0
  }

  /** What a receipt line credits of one product. */
  function CreditOf(items: seq<TransferItem>, product: nat): ReceiveLine -> int {
    (line: ReceiveLine) => if line.item < |items| && items[line.item].product == product then line.received else 0
  }

  predicate ReportsItems(items: seq<TransferItem>, lines: seq<ReceiveLine>) {
    forall k :: 0 <= k < |lines| ==> lines[k].item < |items|
  }

  /** No item reports more over all its lines than was shipped of it and is not accounted for. */
  predicate ReportsWithinShipped(items: seq<TransferItem>, lines: seq<ReceiveLine>) {
    forall i :: 0 <= i < |items| ==>
      items[i].received + items[i].damaged + Sum(lines, ReportedOf(i)) <= items[i].shipped
  }

  /** Damage comes with units received by the same line, and is at most the balance with what
      the lines up to this one credit. */
  predicate DamageFits(b: Books, items: seq<TransferItem>, dest: nat, lines: seq<ReceiveLine>, k: nat)
    requires k < |lines| && ReportsItems(items, lines)
  {
    var product := items[lines[k].item].product;
    lines[k].damaged > 0 ==>
      lines[k].received > 0
      && lines[k].damaged <= At(b.onHand, Cell(dest, product)) + Sum(lines[..k + 1], CreditOf(items, product))
  }

  /** The line credits a row that exists, or one that no earlier line has added. */
  predicate CreditsOnce(s: Session, items: seq<TransferItem>, dest: nat, lines: seq<ReceiveLine>, k: nat)
    requires k < |lines| && ReportsItems(items, lines)
  {
    var cell := Cell(dest, items[lines[k].item].product);
    lines[k].received > 0 ==>
      cell !in s.created
      && (cell in s.books.onHand
          || forall j :: 0 <= j < k && lines[j].received > 0 ==> items[lines[j].item].product != cell.product)
  }

  predicate CanReceive(s: Session, items: seq<TransferItem>, dest: nat, lines: seq<ReceiveLine>) {
    && ReportsItems(items, lines)
    && ReportsWithinShipped(items, lines)
    && forall k :: 0 <= k < |lines| ==>
         DamageFits(s.books, items, dest, lines, k) && CreditsOnce(s, items, dest, lines, k)
  }

  predicate Accepted(r: Result<Receiving>) {
    r.Ok? && !r.value.session.broken && forall i :: 0 <= i < |r.value.items| ==>
      r.value.items[i].received + r.value.items[i].damaged <= r.value.items[i].shipped
  }

  lemma ReportedSums(items: seq<TransferItem>, lines: seq<ReceiveLine>, i: nat)
    requires lines != []
    ensures Sum(lines, ReportedOf(i)) == ReportedOf(i)(lines[0]) + Sum(lines[1..], ReportedOf(i))
    ensures Sum(lines[1..], ReportedOf(i)) >= 0
  {
    SumFirst(lines, ReportedOf(i));
    SumNonNegative(lines[1..], ReportedOf(i));
  }

  /** After the first line, the rest stays within what was shipped exactly when the whole did. */
  lemma RestWithinShipped(items: seq<TransferItem>, items1: seq<TransferItem>, lines: seq<ReceiveLine>)
    requires lines != [] && lines[0].item < |items|
    requires var line := lines[0]; var item := items[line.item];
      items1 == items[line.item := item.(received := item.received + line.received,
                                           damaged := item.damaged + line.damaged)]
    ensures ReportsWithinShipped(items, lines) <==> ReportsWithinShipped(items1, lines[1..])
  {
    forall i | 0 <= i < |items|
      ensures items[i].received + items[i].damaged + Sum(lines, ReportedOf(i))
           == items1[i].received + items1[i].damaged + Sum(lines[1..], ReportedOf(i))
    {
      ReportedSums(items, lines, i);
    }
  }

  lemma CreditSums(items: seq<TransferItem>, items1: seq<TransferItem>, lines: seq<ReceiveLine>, k: nat, product: nat)
    requires 0 < k < |lines| && |items1| == |items|
    requires forall i :: 0 <= i < |items| ==> items1[i].product == items[i].product
    ensures Sum(lines[..k + 1], CreditOf(items, product))
         == CreditOf(items, product)(lines[0]) + Sum(lines[1..][..k], CreditOf(items1, product))
  {
    assert lines[..k + 1][1..] == lines[1..][..k];
    SumFirst(lines[..k + 1], CreditOf(items, product));
    SumAgree(lines[1..][..k], CreditOf(items, product), CreditOf(items1, product));
  }

  lemma RestDamage(r: Receiving, id: nat, dest: nat, lines: seq<ReceiveLine>, k: nat)
    requires 0 < k < |lines| && ReportsItems(r.items, lines)
    requires ReceiveOne(r, id, dest, lines[0]).Ok? && !ReceiveOne(r, id, dest, lines[0]).value.session.broken
    ensures var r1 := ReceiveOne(r, id, dest, lines[0]).value;
      && ReportsItems(r1.items, lines[1..])
      && (DamageFits(r.session.books, r.items, dest, lines, k)
          <==> DamageFits(r1.session.books, r1.items, dest, lines[1..], k - 1))
  {
    var r1 := ReceiveOne(r, id, dest, lines[0]).value;
    CreditSums(r.items, r1.items, lines, k, r.items[lines[k].item].product);
  }

  lemma RestCredits(r: Receiving, id: nat, dest: nat, lines: seq<ReceiveLine>, k: nat)
    requires 0 < k < |lines| && ReportsItems(r.items, lines)
    requires ReceiveOne(r, id, dest, lines[0]).Ok? && !ReceiveOne(r, id, dest, lines[0]).value.session.broken
    ensures var r1 := ReceiveOne(r, id, dest, lines[0]).value;
      && ReportsItems(r1.items, lines[1..])
      && (CreditsOnce(r.session, r.items, dest, lines, k)
          <==> CreditsOnce(r1.session, r1.items, dest, lines[1..], k - 1))
  {
    var r1 := ReceiveOne(r, id, dest, lines[0]).value;
    var rest := lines[1..];
    assert rest[k - 1] == lines[k];
    assert forall j :: 0 <= j < k - 1 ==> rest[j] == lines[j + 1];
    assert forall j :: 0 < j < k ==> lines[j] == rest[j - 1];
  }

  /** The first line is taken, and leaves a session that can be flushed, exactly when: */
  lemma FirstReceives(r: Receiving, id: nat, dest: nat, lines: seq<ReceiveLine>)
    requires lines != [] && ReportsItems(r.items, lines) && !r.session.broken
    requires var line := lines[0];
      line.received + line.damaged <= r.items[line.item].shipped - r.items[line.item].received
    ensures ReceiveOne(r, id, dest, lines[0]).Ok?
    ensures !ReceiveOne(r, id, dest, lines[0]).value.session.broken
       <==> DamageFits(r.session.books, r.items, dest, lines, 0) && CreditsOnce(r.session, r.items, dest, lines, 0)
  {
    var product := r.items[lines[0].item].product;
    assert lines[..1] == [] + [lines[0]];
    SumPush([], lines[0], CreditOf(r.items, product));
  }

  lemma RestReceives(r: Receiving, id: nat, dest: nat, lines: seq<ReceiveLine>)
    requires lines != [] && ReportsItems(r.items, lines) && !r.session.broken
    requires ReceiveOne(r, id, dest, lines[0]).Ok? && !ReceiveOne(r, id, dest, lines[0]).value.session.broken
    ensures var r1 := ReceiveOne(r, id, dest, lines[0]).value;
      CanReceive(r.session, r.items, dest, lines) <==> CanReceive(r1.session, r1.items, dest, lines[1..])
  {
    var r1 := ReceiveOne(r, id, dest, lines[0]).value;
    var rest := lines[1..];
    FirstReceives(r, id, dest, lines);
    RestWithinShipped(r.items, r1.items, lines);
    forall k | 0 < k < |lines|
      ensures DamageFits(r.session.books, r.items, dest, lines, k)
          <==> DamageFits(r1.session.books, r1.items, dest, rest, k - 1)
      ensures CreditsOnce(r.session, r.items, dest, lines, k) <==> CreditsOnce(r1.session, r1.items, dest, rest, k - 1)
    {
      RestDamage(r, id, dest, lines, k);
      RestCredits(r, id, dest, lines, k);
    }
    if CanReceive(r1.session, r1.items, dest, rest) {
      forall k | 0 <= k < |lines|
        ensures DamageFits(r.session.books, r.items, dest, lines, k) && CreditsOnce(r.session, r.items, dest, lines, k)
      {
        if k > 0 {
          assert DamageFits(r1.session.books, r1.items, dest, rest, k - 1)
              && CreditsOnce(r1.session, r1.items, dest, rest, k - 1);
        }
      }
    }
    if CanReceive(r.session, r.items, dest, lines) {
      forall k | 0 <= k < |rest|
        ensures DamageFits(r1.session.books, r1.items, dest, rest, k)
            && CreditsOnce(r1.session, r1.items, dest, rest, k)
      {
        assert DamageFits(r.session.books, r.items, dest, lines, k + 1)
            && CreditsOnce(r.session, r.items, dest, lines, k + 1);
      }
    }
  }

  /** The receive loop ends with items and a session that can be flushed exactly when every
      line names an item, no item reports more than was shipped, every damaged unit is covered
      by the balance its line has just credited, and no missing row is credited twice. */
  lemma {:induction false} ReceivesExactlyWhenCovered(r: Receiving, id: nat, dest: nat, lines: seq<ReceiveLine>)
    requires !r.session.broken && forall i :: 0 <= i < |r.items| ==> r.items[i].damaged >= 0
    ensures Accepted(ReceiveAll(r, id, dest, lines)) <==> CanReceive(r.session, r.items, dest, lines)
    decreases |lines|
  {
    if lines == [] {
      return;
    }
    var line := lines[0];
    var first := ReceiveOne(r, id, dest, line);
    if line.item >= |r.items| {
      return;
    }
    ReportedSums(r.items, lines, line.item);
    if first.Err? {
      return;
    }
    if first.value.session.broken {
      if ReceiveAll(r, id, dest, lines).Ok? {
        ReceiveAllStaysBroken(first.value, id, dest, lines[1..]);
      }
      if ReportsItems(r.items, lines) {
        FirstReceives(r, id, dest, lines);
      }
      return;
    }
    ReceivesExactlyWhenCovered(first.value, id, dest, lines[1..]);
    if ReportsItems(r.items, lines) {
      RestReceives(r, id, dest, lines);
    } else {
      var k :| 0 <= k < |lines| && lines[k].item >= |r.items|;
      assert lines[1..][k - 1] == lines[k];
    }
  }
}
