/** The tables the stock services read and write.  Row ids are positions in their tables. */
module StockData {
  import opened Basics
  import opened Sums
  import opened StockBooks
  import opened OrderWorkflow

  datatype Product = Product(org: nat, active: bool, deleted: bool, tracked: bool, price: int)

  /** A line of an order request, stored unchanged as the order item.  Money is in cents. */
  datatype OrderLine = OrderLine(product: nat, quantity: Quantity, unitPrice: int, discount: int)

  /** `cancelled` says whether `cancelled_at` is set; no service clears it. */
  datatype Order = Order(
    org: nat, branch: nat, key: Option<string>, status: Status, cancelled: bool,
    lines: seq<OrderLine>, grandTotal: int)

  datatype TransferStatus = Draft | Awaiting | InTransit | Arrived | Withdrawn

  datatype TransferItem =
    TransferItem(product: nat, requested: Quantity, shipped: int, received: int, damaged: int)

  datatype Transfer =
    Transfer(org: nat, source: nat, dest: nat, status: TransferStatus, items: seq<TransferItem>)

  datatype PurchaseStatus = Drafted | Approved | PartlyReceived | FullyReceived | Dropped

  datatype PurchaseItem = PurchaseItem(product: nat, ordered: Quantity, received: int)

  datatype PurchaseOrder = PurchaseOrder(org: nat, status: PurchaseStatus, items: seq<PurchaseItem>)

  /** A `purchase_receiving_items` row with the purchase order its receiving belongs to. */
  datatype ReceiptLine = ReceiptLine(purchase: nat, product: nat, quantity: Quantity, lot: LotKey)

  datatype Db = Db(
    books: Books,
    branches: seq<nat>,
    products: seq<Product>,
    orders: seq<Order>,
    transfers: seq<Transfer>,
    purchases: seq<PurchaseOrder>,
    receivings: nat,
    receipts: seq<ReceiptLine>,
    lots: map<LotKey, int>,
    returnCount: nat)

  /** A database with a catalogue and nothing else; `branches[b]` is the owner of branch `b`. */
  function Opening(branches: seq<nat>, products: seq<Product>): Db {
    Db(Books(map[], []), branches, products, [], [], [], 0, [], map[], 0)
  }

  predicate OwnsBranch(db: Db, org: nat, branch: nat) {
    branch < |db.branches| && db.branches[branch] == org
  }

  predicate Tracked(products: seq<Product>, product: nat) {
    product < |products| && products[product].tracked
  }

  function LineTotal(line: OrderLine): int {
    line.unitPrice * line.quantity - line.discount
  }

  /** What the lines of an order take of one product. */
  function QuantityOf(product: nat): OrderLine -> int {
    (line: OrderLine) => if line.product == product then line.quantity else 0
  }

  function Demand(lines: seq<OrderLine>, product: nat): int {
    Sum(lines, QuantityOf(product))
  }

  /** The part of it that stock is kept for. */
  function TrackedDemand(products: seq<Product>, lines: seq<OrderLine>, product: nat): int {
    if Tracked(products, product) then Demand(lines, product) else 0
  }
}
