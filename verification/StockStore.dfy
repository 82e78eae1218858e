/** The stock services as they run: methods that loop over the lines of a request.  Local
    copies of the tables are a session's uncommitted work, assigning them to the fields is
    the commit, and returning an error without doing so is the rollback. */
module StockStore {
  import opened Basics
  import opened Sums
  import opened RunningLedger
  import opened StockBooks
  import opened OrderWorkflow
  import opened StockData
  import OrderStock
  import TransferStock
  import PurchaseStock
  import ReturnStock
  import StockRuns

  class Store {
    var onHand: map<Cell, int>
    var movements: seq<Movement>
    const branches: seq<nat>
    var products: seq<Product>
    var orders: seq<Order>
    var transfers: seq<Transfer>
    var purchases: seq<PurchaseOrder>
    var receivings: nat
    var receipts: seq<ReceiptLine>
    var lots: map<LotKey, int>
    var returnCount: nat

    ghost function Snapshot(): Db
      reads this
    {
      Db(Books(onHand, movements), branches, products, orders, transfers, purchases, receivings, receipts, lots,
          returnCount)
    }

    constructor (branches: seq<nat>, products: seq<Product>)
      ensures Snapshot() == Opening(branches, products)
    {
      this.branches, this.products := branches, products;
      onHand, movements, orders, transfers, purchases := map[], [], [], [], [];
      receivings, receipts, lots, returnCount := 0, [], map[], 0;
    }

    /** The state a call leaves: the specified one, or the old one when it fails. */
    static ghost predicate Leaves(before: Db, after: Db, spec: Result<Db>, r: Result<()>) {
      match spec
      case Ok(db) => r == Ok(()) && after == db
      case Err(e) => r == Err(e) && after == before
    }

    /** One line of `create_order`: the guarded decrement and its movement. */
    static method DeductStock(onHand: map<Cell, int>, movements: seq<Movement>, products: seq<Product>,
                              id: nat, branch: nat, line: OrderLine) returns (r: Result<Books>)
      ensures r == OrderStock.SellLine(Books(onHand, movements), products, id, branch, line)
    {
      if !Tracked(products, line.product) {
        return Ok(Books(onHand, movements));
      }
      var cell := Cell(branch, line.product);
      if cell !in onHand || onHand[cell] < line.quantity {
        return Err(InsufficientStock);
      }
      var before := onHand[cell];
      return Ok(Books(onHand[cell := before - line.quantity],
                      movements + [Entry(cell, 0 - line.quantity, before, before - line.quantity, true,
                                         OrderStock.SalePosting(id, branch, line))]));
    }

    /** The item loop of `create_order`, with the subtotal it accumulates. */
    static method SellLoop(onHand0: map<Cell, int>, movements0: seq<Movement>, products: seq<Product>,
                           id: nat, branch: nat, lines: seq<OrderLine>) returns (r: Result<Books>, subtotal: int)
      ensures r == OrderStock.SellLines(Books(onHand0, movements0), products, id, branch, lines)
      ensures r.Ok? ==> subtotal == OrderStock.Subtotal(lines)
    {
      subtotal := 0;
      var onHand, movements := onHand0, movements0;
      for i := 0 to |lines|
        invariant OrderStock.SellLines(Books(onHand0, movements0), products, id, branch, lines)
               == OrderStock.SellLines(Books(onHand, movements), products, id, branch, lines[i..])
        invariant subtotal == OrderStock.Subtotal(lines[..i])
      {
        var line := lines[i];
        subtotal := subtotal + LineTotal(line);
        OrderStock.SubtotalTurn(lines, i);
        OrderStock.SellLinesTurn(Books(onHand, movements), products, id, branch, lines, i);
        var sold := DeductStock(onHand, movements, products, id, branch, line);
        if sold.Err? {
          return Err(sold.error), 0;
        }
        onHand, movements := sold.value.onHand, sold.value.movements;
      }
      assert lines[..|lines|] == lines;
      return Ok(Books(onHand, movements)), subtotal;
    }

    /** What `create_order` looks at before it touches any stock. */
    method Admit(q: OrderStock.OrderRequest) returns (r: Result<()>)
      ensures r == OrderStock.Admit(Snapshot(), q)
    {
      if q.branch >= |branches| || branches[q.branch] != q.org {
        return Err(NotFound);
      }
      if exists line :: line in q.lines
          && !(line.product < |products| && var p := products[line.product]; p.org == q.org && p.active && !p.deleted) {
        return Err(BadRequest);
      }
      if q.ecommerce && exists line :: line in q.lines && line.unitPrice != products[line.product].price {
        return Err(BadRequest);
      }
      if OrderStock.KeyTaken(orders, q.key) {
        return Err(Integrity);
      }
      return Ok(());
    }

    method CreateOrder(q: OrderStock.OrderRequest) returns (r: Result<nat>)
      modifies this
      ensures match OrderStock.CreateOrder(old(Snapshot()), q)
              case Ok((db, id)) => r == Ok(id) && Snapshot() == db
              case Err(e) => r == Err(e) && Snapshot() == old(Snapshot())
    {
      if q.key.Some? && q.key.value != "" {
        var existing := OrderStock.FindByKey(orders, q.org, q.key.value);
        if existing.Some? {
          return Ok(existing.value);
        }
      }
      var admitted := Admit(q);
      if admitted.Err? {
        return Err(admitted.error);
      }
      var id := |orders|;
      var sold, subtotal := SellLoop(onHand, movements, products, id, q.branch, q.lines);
      if sold.Err? {
        return Err(sold.error);
      }
      if exists line :: line in q.lines && (line.unitPrice < 0 || LineTotal(line) < 0) {
        return Err(Integrity);
      }
      onHand, movements := sold.value.onHand, sold.value.movements;
      var order := Order(q.org, q.branch, q.key, Pending, false, q.lines, subtotal - q.discount);
      assert order == OrderStock.PlacedOrder(q);
      orders := orders + [order];
      return Ok(id);
    }

    method CancelOrder(org: nat, id: nat) returns (r: Result<()>)
      modifies this
      ensures Leaves(old(Snapshot()), Snapshot(), OrderStock.CancelOrder(old(Snapshot()), org, id), r)
    {
      if id >= |orders| || orders[id].org != org {
        return Err(NotFound);
      }
      var o := orders[id];
      if !Cancellable(o.status) {
        return Err(InvalidState);
      }
      var onHand, movements := this.onHand, this.movements;
      ghost var books := Books(onHand, movements);
      for i := 0 to |o.lines|
        invariant Snapshot() == old(Snapshot())
        invariant OrderStock.RestoreLines(books, products, id, o.branch, o.lines)
               == OrderStock.RestoreLines(Books(onHand, movements), products, id, o.branch, o.lines[i..])
      {
        var line := o.lines[i];
        assert o.lines[i..][1..] == o.lines[i + 1..];
        if Tracked(products, line.product) {
          var cell := Cell(o.branch, line.product);
          if cell !in onHand {
            return Err(Crash);
          }
          var before := onHand[cell];
          onHand := onHand[cell := before + line.quantity];
          movements := movements + [Entry(cell, line.quantity, before, before + line.quantity, true,
                                          OrderStock.RestorePosting(id, o.branch, line))];
        }
      }
      this.onHand, this.movements := onHand, movements;
      orders := orders[id := o.(status := Cancelled, cancelled := true)];
      return Ok(());
    }

    /** The status writes of the services that settle or advance an order. */
    method ProgressOrder(id: nat, target: Status) returns (r: Result<()>)
      modifies this
      ensures Leaves(old(Snapshot()), Snapshot(), OrderStock.ProgressOrder(old(Snapshot()), id, target), r)
    {
      if id >= |orders| {
        return Err(NotFound);
      }
      if !Moves(orders[id].status, target) {
        return Err(InvalidState);
      }
      orders := orders[id := orders[id].(status := target)];
      return Ok(());
    }

    method EditProduct(id: nat, edited: Product) returns (r: Result<()>)
      modifies this
      ensures Leaves(old(Snapshot()), Snapshot(),
          StockRuns.Apply(old(Snapshot()), StockRuns.EditProduct(id, edited)), r)
    {
      if id >= |products| {
        return Err(NotFound);
      }
      products := products[id := edited];
      return Ok(());
    }

    method AdjustInventory(branch: nat, product: nat, adjustment: int, lot: Option<LotKey>) returns (r: Result<()>)
      modifies this
      ensures Leaves(old(Snapshot()), Snapshot(),
                     ReturnStock.AdjustInventory(old(Snapshot()), branch, product, adjustment, lot), r)
    {
      if adjustment == 0 {
        return Err(BadRequest);
      }
      if product >= |products| || products[product].deleted {
        return Err(NotFound);
      }
      if !products[product].active || !products[product].tracked {
        return Err(BadRequest);
      }
      if branch >= |branches| {
        return Err(Integrity);
      }
      var cell := Cell(branch, product);
      var upserted := ReturnStock.Upserted(onHand, cell, adjustment);
      if upserted.Err? {
        return Err(upserted.error);
      }
      var after := upserted.value[cell];
      if after < 0 {
        return Err(InsufficientStock);
      }
      onHand := upserted.value;
      movements := movements + [Entry(cell, adjustment, after - adjustment, after, true,
                                      ReturnStock.AdjustPosting(branch, product, adjustment, lot))];
      return Ok(());
    }

    /** Also returns the refund the return creates, in cents. */
    method CreateReturn(org: nat, branch: nat, order: nat, lines: seq<ReturnStock.ReturnLine>)
        returns (r: Result<()>, refund: int)
      modifies this
      ensures Leaves(old(Snapshot()), Snapshot(),
          ReturnStock.CreateReturn(old(Snapshot()), org, branch, order, lines), r)
      ensures r.Ok? ==> refund == ReturnStock.RefundTotal(old(orders)[order].lines, lines)
    {
      refund := 0;
      if order >= |orders| || orders[order].org != org {
        return Err(NotFound), 0;
      }
      if branch >= |branches| {
        return Err(Integrity), 0;
      }
      var ordered := orders[order].lines;
      var onHand, movements := this.onHand, this.movements;
      var created: set<Cell>, broken := {}, false;
      ghost var all := ReturnStock.ReturnAll(Session(Books(onHand, movements), {}, false), ordered, returnCount,
          branch, lines);
      assert all.Err? ==> ReturnStock.CreateReturn(Snapshot(), org, branch, order, lines) == Err(all.error);
      ghost var weight := ReturnStock.RefundOf(ordered);
      for i := 0 to |lines|
        invariant Snapshot() == old(Snapshot())
        invariant all
               == ReturnStock.ReturnAll(Session(Books(onHand, movements), created, broken), ordered, returnCount,
                   branch, lines[i..])
        invariant refund == Sum(lines[..i], weight)
      {
        var line := lines[i];
        ghost var was := Session(Books(onHand, movements), created, broken);
        assert lines[i..][0] == line && lines[i..][1..] == lines[i + 1..];
        if line.item >= |ordered| {
          return Err(NotFound), 0;
        }
        if ordered[line.item].product != line.product || line.quantity > ordered[line.item].quantity {
          return Err(BadRequest), 0;
        }
        refund := refund + ordered[line.item].unitPrice * line.quantity;
        assert lines[..i + 1] == lines[..i] + [line];
        SumPush(lines[..i], line, weight);
        if line.restock {
          var cell := Cell(branch, line.product);
          if cell in created {
            broken := true;
          } else {
            if cell !in onHand {
              created := created + {cell};
            }
            var before := At(onHand, cell);
            onHand := onHand[cell := before + line.quantity];
            movements := movements + [Entry(cell, line.quantity, before, before + line.quantity, true,
                                            ReturnStock.ReturnPosting(returnCount, branch, line))];
          }
        }
        assert ReturnStock.ReturnOne(was, ordered, returnCount, branch, line)
            == Ok(Session(Books(onHand, movements), created, broken));
      }
      assert lines[..|lines|] == lines;
      if broken {
        return Err(Integrity), 0;
      }
      this.onHand, this.movements := onHand, movements;
      returnCount := returnCount + 1;
      return Ok(()), refund;
    }

    method CreateTransfer(org: nat, source: nat, dest: nat, lines: seq<(nat, Quantity)>) returns (r: Result<()>)
      modifies this
      ensures Leaves(old(Snapshot()), Snapshot(),
          TransferStock.CreateTransfer(old(Snapshot()), org, source, dest, lines), r)
    {
      if dest == source {
        return Err(BadRequest);
      }
      if !(source < |branches| && branches[source] == org && dest < |branches| && branches[dest] == org) {
        return Err(NotFound);
      }
      var items: seq<TransferItem> := [];
      for i := 0 to |lines|
        invariant Snapshot() == old(Snapshot())
        invariant items == TransferStock.NewItems(lines[..i])
        invariant forall k :: 0 <= k < i ==> lines[k].0 < |products|
      {
        if lines[i].0 >= |products| {
          assert lines[i] in lines;
          return Err(Integrity);
        }
        items := items + [TransferItem(lines[i].0, lines[i].1, 0, 0, 0)];
      }
      assert lines[..|lines|] == lines;
      transfers := transfers + [Transfer(org, source, dest, Draft, items)];
      return Ok(());
    }

    method ApproveTransfer(org: nat, id: nat) returns (r: Result<()>)
      modifies this
      ensures Leaves(old(Snapshot()), Snapshot(), TransferStock.ApproveTransfer(old(Snapshot()), org, id), r)
    {
      if id >= |transfers| || transfers[id].org != org {
        return Err(NotFound);
      }
      if transfers[id].status != Draft {
        return Err(InvalidState);
      }
      transfers := transfers[id := transfers[id].(status := Awaiting)];
      return Ok(());
    }

    method CancelTransfer(org: nat, id: nat) returns (r: Result<()>)
      modifies this
      ensures Leaves(old(Snapshot()), Snapshot(), TransferStock.CancelTransfer(old(Snapshot()), org, id), r)
    {
      if id >= |transfers| || transfers[id].org != org {
        return Err(NotFound);
      }
      if transfers[id].status != Draft && transfers[id].status != Awaiting {
        return Err(InvalidState);
      }
      transfers := transfers[id := transfers[id].(status := Withdrawn)];
      return Ok(());
    }

    method ShipTransfer(org: nat, id: nat, lines: seq<TransferStock.ShipLine>) returns (r: Result<()>)
      modifies this
      ensures Leaves(old(Snapshot()), Snapshot(), TransferStock.ShipTransfer(old(Snapshot()), org, id, lines), r)
    {
      if id >= |transfers| || transfers[id].org != org {
        return Err(NotFound);
      }
      var t := transfers[id];
      if t.status != Awaiting {
        return Err(InvalidState);
      }
      var onHand, movements, items := this.onHand, this.movements, t.items;
      ghost var shipping := TransferStock.Shipping(Books(onHand, movements), items);
      for i := 0 to |lines|
        invariant Snapshot() == old(Snapshot())
        invariant TransferStock.ShipAll(shipping, id, t.source, lines)
               == TransferStock.ShipAll(TransferStock.Shipping(Books(onHand, movements), items), id, t.source,
                   lines[i..])
      {
        var line := lines[i];
        assert lines[i..][1..] == lines[i + 1..];
        if line.item >= |items| {
          return Err(NotFound);
        }
        var item := items[line.item];
        if line.quantity > item.requested - item.shipped {
          return Err(BadRequest);
        }
        var cell := Cell(t.source, item.product);
        if cell !in onHand || onHand[cell] < line.quantity {
          return Err(InsufficientStock);
        }
        var before := onHand[cell];
        onHand := onHand[cell := before - line.quantity];
        movements := movements + [Entry(cell, 0 - line.quantity, before, before - line.quantity, true,
                                        TransferStock.OutPosting(id, t.source, item.product, line.quantity))];
        items := items[line.item := item.(shipped := item.shipped + line.quantity)];
      }
      this.onHand, this.movements := onHand, movements;
      transfers := transfers[id := t.(status := InTransit, items := items)];
      return Ok(());
    }

    /** One line of `receive_transfer`: what arrived, what of it is damaged, and the item. */
    static method TakeDelivery(onHand0: map<Cell, int>, movements0: seq<Movement>, created0: set<Cell>, broken0: bool,
                               items: seq<TransferItem>, id: nat, dest: nat, line: TransferStock.ReceiveLine)
      returns (r: Result<TransferStock.Receiving>)
      ensures r == TransferStock.ReceiveOne(
                     TransferStock.Receiving(Session(Books(onHand0, movements0), created0, broken0), items),
                     id, dest, line)
    {
      var onHand, movements, created, broken := onHand0, movements0, created0, broken0;
      if line.item >= |items| {
        return Err(NotFound);
      }
      var item := items[line.item];
      if line.received + line.damaged > item.shipped - item.received {
        return Err(BadRequest);
      }
      var cell := Cell(dest, item.product);
      if line.received > 0 {
        if cell in created {
          broken := true;
        } else {
          if cell !in onHand {
            created := created + {cell};
          }
          var before := At(onHand, cell);
          onHand := onHand[cell := before + line.received];
          movements := movements + [Entry(cell, line.received, before, before + line.received, true,
                                          TransferStock.InPosting(id, dest, item.product, line.received))];
        }
      }
      if line.damaged > 0 {
        var before := if line.received > 0 then At(onHand, cell) else 0;
        if before - line.damaged < 0 {
          broken := true;
        } else {
          movements := movements + [Entry(cell, 0 - line.damaged, before, before - line.damaged, false,
                                          TransferStock.DamagePosting(id, dest, item.product, line.damaged))];
        }
      }
      var item1 := item.(received := item.received + line.received, damaged := item.damaged + line.damaged);
      return Ok(TransferStock.Receiving(Session(Books(onHand, movements), created, broken), items[line.item := item1]));
    }

    method ReceiveTransfer(org: nat, id: nat, lines: seq<TransferStock.ReceiveLine>) returns (r: Result<()>)
      modifies this
      ensures Leaves(old(Snapshot()), Snapshot(), TransferStock.ReceiveTransfer(old(Snapshot()), org, id, lines), r)
    {
      if id >= |transfers| || transfers[id].org != org {
        return Err(NotFound);
      }
      var t := transfers[id];
      if t.status != InTransit {
        return Err(InvalidState);
      }
      var onHand, movements, items := this.onHand, this.movements, t.items;
      var created: set<Cell>, broken := {}, false;
      ghost var receiving := TransferStock.Receiving(Session(Books(onHand, movements), {}, false), items);
      for i := 0 to |lines|
        invariant Snapshot() == old(Snapshot())
        invariant TransferStock.ReceiveAll(receiving, id, t.dest, lines)
               == TransferStock.ReceiveAll(
                    TransferStock.Receiving(Session(Books(onHand, movements), created, broken), items),
                    id, t.dest, lines[i..])
      {
        assert lines[i..][0] == lines[i] && lines[i..][1..] == lines[i + 1..];
        var taken := TakeDelivery(onHand, movements, created, broken, items, id, t.dest, lines[i]);
        if taken.Err? {
          return Err(taken.error);
        }
        var s := taken.value.session;
        onHand, movements, created, broken := s.books.onHand, s.books.movements, s.created, s.broken;
        items := taken.value.items;
      }
      if broken || !TransferStock.ItemsStorable(items) {
        return Err(Integrity);
      }
      this.onHand, this.movements := onHand, movements;
      transfers := transfers[id := t.(status := Arrived, items := items)];
      return Ok(());
    }

    method CreatePurchase(org: nat, lines: seq<(nat, Quantity)>) returns (r: Result<()>)
      modifies this
      ensures Leaves(old(Snapshot()), Snapshot(), PurchaseStock.CreatePurchase(old(Snapshot()), org, lines), r)
    {
      var items: seq<PurchaseItem> := [];
      for i := 0 to |lines|
        invariant Snapshot() == old(Snapshot())
        invariant items == PurchaseStock.NewPurchaseItems(lines[..i])
        invariant forall k :: 0 <= k < i ==>
          lines[k].0 < |products| && products[lines[k].0].org == org && !products[lines[k].0].deleted
      {
        if lines[i].0 >= |products| || products[lines[i].0].org != org || products[lines[i].0].deleted {
          assert lines[i] in lines;
          return Err(NotFound);
        }
        items := items + [PurchaseItem(lines[i].0, lines[i].1, 0)];
      }
      assert lines[..|lines|] == lines;
      purchases := purchases + [PurchaseOrder(org, Drafted, items)];
      return Ok(());
    }

    method UpdatePurchase(org: nat, id: nat, lines: seq<(nat, Quantity)>) returns (r: Result<()>)
      modifies this
      ensures Leaves(old(Snapshot()), Snapshot(), PurchaseStock.UpdatePurchase(old(Snapshot()), org, id, lines), r)
    {
      if id >= |purchases| || purchases[id].org != org {
        return Err(NotFound);
      }
      if purchases[id].status != Drafted {
        return Err(BadRequest);
      }
      var items: seq<PurchaseItem> := [];
      for i := 0 to |lines|
        invariant Snapshot() == old(Snapshot())
        invariant items == PurchaseStock.NewPurchaseItems(lines[..i])
        invariant forall k :: 0 <= k < i ==>
          lines[k].0 < |products| && products[lines[k].0].org == org && !products[lines[k].0].deleted
      {
        if lines[i].0 >= |products| || products[lines[i].0].org != org || products[lines[i].0].deleted {
          assert lines[i] in lines;
          return Err(NotFound);
        }
        items := items + [PurchaseItem(lines[i].0, lines[i].1, 0)];
      }
      assert lines[..|lines|] == lines;
      purchases := purchases[id := purchases[id].(items := items)];
      return Ok(());
    }

    method ApprovePurchase(org: nat, id: nat) returns (r: Result<()>)
      modifies this
      ensures Leaves(old(Snapshot()), Snapshot(), PurchaseStock.ApprovePurchase(old(Snapshot()), org, id), r)
    {
      if id >= |purchases| || purchases[id].org != org {
        return Err(NotFound);
      }
      if purchases[id].status != Drafted {
        return Err(BadRequest);
      }
      purchases := purchases[id := purchases[id].(status := Approved)];
      return Ok(());
    }

    method CancelPurchase(org: nat, id: nat) returns (r: Result<()>)
      modifies this
      ensures Leaves(old(Snapshot()), Snapshot(), PurchaseStock.CancelPurchase(old(Snapshot()), org, id), r)
    {
      if id >= |purchases| || purchases[id].org != org {
        return Err(NotFound);
      }
      if purchases[id].status != Drafted {
        return Err(BadRequest);
      }
      purchases := purchases[id := purchases[id].(status := Dropped)];
      return Ok(());
    }

    /** The line loop of `receive_purchase_order`. */
    static method StoreLoop(onHand0: map<Cell, int>, movements0: seq<Movement>, items0: seq<PurchaseItem>,
                            receipts0: seq<ReceiptLine>, lots0: map<LotKey, int>,
                            purchase: nat, receiving: nat, branch: nat, lines: seq<PurchaseStock.ReceivedLine>)
      returns (r: Result<PurchaseStock.Receipt>)
      ensures r == PurchaseStock.StoreAll(
        PurchaseStock.Receipt(Books(onHand0, movements0), items0, receipts0, lots0, false), purchase, receiving,
            branch, lines)
    {
      var onHand, movements, items, receipts, lots := onHand0, movements0, items0, receipts0, lots0;
      var allFullyReceived := true;
      ghost var all := PurchaseStock.StoreAll(
        PurchaseStock.Receipt(Books(onHand, movements), items, receipts, lots, false), purchase, receiving, branch,
            lines);
      for i := 0 to |lines|
        invariant all == PurchaseStock.StoreAll(
          PurchaseStock.Receipt(Books(onHand, movements), items, receipts, lots, !allFullyReceived),
          purchase, receiving, branch, lines[i..])
      {
        var line := lines[i];
        ghost var was := PurchaseStock.Receipt(Books(onHand, movements), items, receipts, lots, !allFullyReceived);
        assert lines[i..][0] == line && lines[i..][1..] == lines[i + 1..];
        if line.item >= |items| {
          return Err(NotFound);
        }
        if !PurchaseStock.PurchaseItemsStorable(items) {
          return Err(Integrity);
        }
        var item := items[line.item];
        var cell := Cell(branch, item.product);
        var lot := LotKey(cell, line.lotNumber);
        receipts := receipts + [ReceiptLine(purchase, item.product, line.quantity, lot)];
        lots := lots[lot := At(lots, lot) + line.quantity];
        var before := At(onHand, cell);
        onHand := onHand[cell := before + line.quantity];
        movements := movements + [Entry(cell, line.quantity, before, before + line.quantity, true,
                                        PurchaseStock.StorePosting(receiving, lot, line.quantity))];
        items := items[line.item := item.(received := item.received + line.quantity)];
        if items[line.item].received < items[line.item].ordered {
          allFullyReceived := false;
        }
        assert PurchaseStock.StoreOne(was, purchase, receiving, branch, line)
            == Ok(PurchaseStock.Receipt(Books(onHand, movements), items, receipts, lots, !allFullyReceived));
      }
      return Ok(PurchaseStock.Receipt(Books(onHand, movements), items, receipts, lots, !allFullyReceived));
    }

    method ReceivePurchase(org: nat, id: nat, branch: nat, lines: seq<PurchaseStock.ReceivedLine>)
        returns (r: Result<()>)
      modifies this
      ensures Leaves(old(Snapshot()), Snapshot(),
          PurchaseStock.ReceivePurchase(old(Snapshot()), org, id, branch, lines), r)
    {
      if id >= |purchases| || purchases[id].org != org {
        return Err(NotFound);
      }
      var po := purchases[id];
      if po.status != Approved && po.status != PartlyReceived {
        return Err(BadRequest);
      }
      if branch >= |branches| {
        return Err(Integrity);
      }
      var stored := StoreLoop(onHand, movements, po.items, receipts, lots, id, receivings, branch, lines);
      if stored.Err? {
        return Err(stored.error);
      }
      var done := stored.value;
      if !PurchaseStock.PurchaseItemsStorable(done.items) {
        return Err(Integrity);
      }
      onHand, movements, receipts, lots := done.books.onHand, done.books.movements, done.receipts, done.lots;
      purchases := purchases[id := po.(status := if done.short then PartlyReceived
          else FullyReceived, items := done.items)];
      receivings := receivings + 1;
      return Ok(());
    }

    // ---- Serving requests ----

    /** An order step, a return, an adjustment or an edit of the catalogue. */
    method PerformSale(step: StockRuns.Step)
      requires step.PlaceOrder? || step.Cancel? || step.Progress? || step.Adjust? || step.TakeReturn?
          || step.EditProduct?
      modifies this
      ensures Snapshot() == StockRuns.Next(old(Snapshot()), step)
    {
      match step {
        case PlaceOrder(q) => var _ := CreateOrder(q);
        case Cancel(org, id) => var _ := CancelOrder(org, id);
        case Progress(id, target) => var _ := ProgressOrder(id, target);
        case Adjust(branch, product, adjustment, lot) => var _ := AdjustInventory(branch, product, adjustment, lot);
        case TakeReturn(org, branch, id, lines) => var _, _ := CreateReturn(org, branch, id, lines);
        case EditProduct(id, edited) => var _ := EditProduct(id, edited);
      }
    }

    method PerformTransfer(step: StockRuns.Step)
      requires step.DraftTransfer? || step.ClearTransfer? || step.Ship? || step.Receive? || step.WithdrawTransfer?
      modifies this
      ensures Snapshot() == StockRuns.Next(old(Snapshot()), step)
    {
      match step {
        case DraftTransfer(org, source, dest, lines) => var _ := CreateTransfer(org, source, dest, lines);
        case ClearTransfer(org, id) => var _ := ApproveTransfer(org, id);
        case Ship(org, id, lines) => var _ := ShipTransfer(org, id, lines);
        case Receive(org, id, lines) => var _ := ReceiveTransfer(org, id, lines);
        case WithdrawTransfer(org, id) => var _ := CancelTransfer(org, id);
      }
    }

    method PerformPurchase(step: StockRuns.Step)
      requires step.DraftPurchase? || step.RevisePurchase? || step.ClearPurchase? || step.DropPurchase?
      modifies this
      ensures Snapshot() == StockRuns.Next(old(Snapshot()), step)
    {
      match step {
        case DraftPurchase(org, lines) => var _ := CreatePurchase(org, lines);
        case RevisePurchase(org, id, lines) => var _ := UpdatePurchase(org, id, lines);
        case ClearPurchase(org, id) => var _ := ApprovePurchase(org, id);
        case DropPurchase(org, id) => var _ := CancelPurchase(org, id);
      }
    }

    /** One request, by the method it asks for. */
    method Perform(step: StockRuns.Step)
      modifies this
      ensures Snapshot() == StockRuns.Next(old(Snapshot()), step)
    {
      if step.DraftTransfer? || step.ClearTransfer? || step.Ship? || step.Receive? || step.WithdrawTransfer? {
        PerformTransfer(step);
      } else if step.DraftPurchase? || step.RevisePurchase? || step.ClearPurchase? || step.DropPurchase? {
        PerformPurchase(step);
      } else if step.ReceiveGoods? {
        var _ := ReceivePurchase(step.org, step.id, step.branch, step.goods);
      } else {
        PerformSale(step);
      }
    }

    /** Any sequence of requests, some of which may fail, is a run of the specification and
        keeps the invariant. */
    method Serve(steps: seq<StockRuns.Step>)
      modifies this
      ensures Snapshot() == StockRuns.Run(old(Snapshot()), steps)
      ensures old(StockRuns.Inv(Snapshot())) ==> StockRuns.Inv(Snapshot())
    {
      for i := 0 to |steps|
        invariant StockRuns.Run(Snapshot(), steps[i..]) == StockRuns.Run(old(Snapshot()), steps)
      {
        assert steps[i..][0] == steps[i] && steps[i..][1..] == steps[i + 1..];
        Perform(steps[i]);
      }
      if old(StockRuns.Inv(Snapshot())) {
        StockRuns.RunKeeps(old(Snapshot()), steps);
      }
    }
  }
}
