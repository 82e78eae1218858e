/** The stock services at the level of SQL statements.  Transactions of create_order,
    cancel_order, adjust_inventory, ship_transfer and receive_purchase_order interleave under
    READ COMMITTED: a plain SELECT sees committed rows (and one's own writes), an UPDATE or
    upsert takes the row lock and works on the latest value, locks are held to commit, and a
    transaction may abort at any point. */
module RowLocks {
  import opened Basics
  import opened Sums
  import opened RunningLedger
  import opened StockBooks

  /** Where a transaction is within the three statements of its next posting.  Most services
      SELECT the balance, UPDATE it, and INSERT the movement; adjust_inventory upserts first
      and SELECTs afterwards. */
  datatype Stage = Start | HasRead(seen: Option<int>) | HasWritten(seen: Option<int>) | HasReread(seen: Option<int>)

  datatype Transaction =
    Transaction(todo: seq<Posting>, stage: Stage, writes: map<Cell, int>, pending: seq<Movement>)

  datatype System = System(books: Books, active: map<nat, Transaction>)

  datatype Action = Begin(id: nat, postings: seq<Posting>) | Exec(id: nat) | Commit(id: nat) | Abort(id: nat)

  /** The postings of the five services. */
  predicate Interleaved(p: Posting) {
    match p.kind
    case Sale => p.change < 0
    case TransferOut => p.change < 0
    case Purchase => p.change > 0
    case Adjustment => true
    case _ => false
  }

  /** A manual adjustment, as opposed to the restore of a cancelled order. */
  predicate IsManual(p: Posting) {
    p.kind.Adjustment? && p.reference.AdjustmentRef?
  }

  function Visible(s: System, tx: Transaction, cell: Cell): Option<int> {
    if cell in tx.writes then Some(tx.writes[cell])
    else if cell in s.books.onHand then Some(s.books.onHand[cell])
    else None
  }

  predicate Free(s: System, id: nat, cell: Cell) {
    forall other :: other in s.active.Keys && other != id ==> cell !in s.active[other].writes
  }

  /** The value the UPDATE or upsert of a posting leaves in its row: None while another
      transaction holds the row, when the guard fails, when a row to UPDATE is missing, and
      when the CHECK on the balance, or on the row an upsert proposes, fails. */
  function Updated(s: System, id: nat, tx: Transaction, p: Posting): Option<int> {
    if !Free(s, id, p.cell) then None
    else
      var v := Visible(s, tx, p.cell);
      if v.None? && !p.kind.Purchase? && !IsManual(p) then None
      else if IsManual(p) && p.change < 0 then None
      else
        var v1 := (if v.Some? then v.value else 0) + p.change;
        if v1 >= 0 then Some(v1) else None
  }

  /** `quantity_before` as the service computes it; None when it would add to a missing value. */
  function BeforeOf(p: Posting, seen: Option<int>): Option<int> {
    if IsManual(p) then (if seen.Some? then Some(seen.value - p.change) else None)
    else if seen.None? && (p.kind.TransferOut? || p.kind.Purchase?) then Some(0)
    else seen
  }

  /** The movement row, unless a CHECK constraint refuses it. */
  function Recorded(p: Posting, seen: Option<int>): Option<Movement> {
    var before := BeforeOf(p, seen);
    if before.Some? && p.change != 0 && before.value >= 0 && before.value + p.change >= 0
    then Some(Entry(p.cell, p.change, before.value, before.value + p.change, true, p))
    else None
  }

  /** The next statement of a transaction; None when it cannot proceed. */
  function ExecStatement(s: System, id: nat, tx: Transaction): Option<Transaction>
    requires tx.todo != []
  {
    var p := tx.todo[0];
    match tx.stage
    case Start =>
      if !IsManual(p) then Some(tx.(stage := HasRead(Visible(s, tx, p.cell)))) else Write(s, id, tx, p, None)
    case HasRead(seen) => Write(s, id, tx, p, seen)
    case HasWritten(seen) =>
      if IsManual(p) then Some(tx.(stage := HasReread(Visible(s, tx, p.cell)))) else Insert(tx, p, seen)
    case HasReread(seen) => Insert(tx, p, seen)
  }

  function Write(s: System, id: nat, tx: Transaction, p: Posting, seen: Option<int>): Option<Transaction> {
    var v := Updated(s, id, tx, p);
    if v.Some? then Some(tx.(stage := HasWritten(seen), writes := tx.writes[p.cell := v.value])) else None
  }

  function Insert(tx: Transaction, p: Posting, seen: Option<int>): Option<Transaction>
    requires tx.todo != []
  {
    var m := Recorded(p, seen);
    if m.Some? then Some(Transaction(tx.todo[1..], Start, tx.writes, tx.pending + [m.value])) else None
  }

  /** One action; None when it is not enabled. */
  function Act(s: System, a: Action): Option<System> {
    match a
    case Begin(id, ps) =>
      if id !in s.active && (forall p :: p in ps ==> Interleaved(p))
      then Some(s.(active := s.active[id := Transaction(ps, Start, map[], [])])) else None
    case Exec(id) =>
      if id in s.active && s.active[id].todo != [] then
        var tx := ExecStatement(s, id, s.active[id]);
        if tx.Some? then Some(s.(active := s.active[id := tx.value])) else None
      else None
    case Commit(id) =>
      if id in s.active && s.active[id].todo == [] then
        var tx := s.active[id];
        Some(System(Books(s.books.onHand + tx.writes, s.books.movements + tx.pending), s.active - {id}))
      else None
    case Abort(id) =>
      if id in s.active then Some(s.(active := s.active - {id})) else None
  }

  function Play(s: System, schedule: seq<Action>): Option<System>
    decreases |schedule|
  {
    if schedule == [] then Some(s)
    else
      var s1 := Act(s, schedule[0]);
      if s1.Some? then Play(s1.value, schedule[1..]) else None
  }

  // ---- Safety of every interleaving ----

  /** The part of an unfinished posting that is written to the row and not yet recorded. */
  function Outstanding(tx: Transaction, cell: Cell): int {
    if tx.todo != [] && tx.todo[0].cell == cell && (tx.stage.HasWritten? || tx.stage.HasReread?)
    then tx.todo[0].change else 0
  }

  /** What a transaction has written to a row is what it will record about it. */
  ghost predicate WritesAccounted(b: Books, tx: Transaction, cell: Cell) {
    (if cell in tx.writes then tx.writes[cell] - At(b.onHand, cell) else 0)
    == Balance(tx.pending, cell) + Outstanding(tx, cell)
  }

  ghost predicate TransactionOk(b: Books, tx: Transaction) {
    && (tx.todo == [] ==> tx.stage.Start?)
    && (forall p :: p in tx.todo ==> Interleaved(p))
    && (forall cell :: cell in tx.writes ==> tx.writes[cell] >= 0)
    && NonNegative(tx.pending)
    && forall cell :: WritesAccounted(b, tx, cell)
  }

  /** The committed balances are never negative and are what the committed movements say. */
  ghost predicate BooksAgree(b: Books) {
    && Stocked(b)
    && (forall cell :: At(b.onHand, cell) == Balance(b.movements, cell))
    && NonNegative(b.movements)
  }

  ghost predicate LocksExclusive(s: System) {
    forall a, c :: a in s.active && c in s.active && a != c ==> s.active[a].writes.Keys !! s.active[c].writes.Keys
  }

  /** What every transaction has written is accounted for, under locks of its own. */
  ghost predicate LocksHeld(s: System) {
    && LocksExclusive(s)
    && forall id :: id in s.active ==> TransactionOk(s.books, s.active[id])
  }

  ghost predicate SystemOk(s: System) {
    BooksAgree(s.books) && LocksHeld(s)
  }

  lemma WriteOk(s: System, id: nat, p: Posting, seen: Option<int>)
    requires LocksHeld(s) && id in s.active && s.active[id].todo != [] && s.active[id].todo[0] == p
    requires s.active[id].stage.Start? || s.active[id].stage.HasRead?
    requires Write(s, id, s.active[id], p, seen).Some?
    ensures var tx := Write(s, id, s.active[id], p, seen).value;
      TransactionOk(s.books, tx) && tx.writes.Keys == s.active[id].writes.Keys + {p.cell} && Free(s, id, p.cell)
  {
    var tx := s.active[id];
    var tx1 := Write(s, id, tx, p, seen).value;
    forall cell ensures WritesAccounted(s.books, tx1, cell) {
      assert WritesAccounted(s.books, tx, cell);
    }
  }

  lemma InsertOk(b: Books, tx: Transaction, p: Posting, seen: Option<int>)
    requires TransactionOk(b, tx) && tx.todo != [] && tx.todo[0] == p
    requires tx.stage.HasWritten? || tx.stage.HasReread?
    requires Insert(tx, p, seen).Some?
    ensures TransactionOk(b, Insert(tx, p, seen).value)
  {
    var tx1 := Insert(tx, p, seen).value;
    forall cell ensures WritesAccounted(b, tx1, cell) {
      assert WritesAccounted(b, tx, cell);
      BalancePush(tx.pending, Recorded(p, seen).value, cell);
    }
  }

  lemma ReadOk(b: Books, tx: Transaction, stage: Stage)
    requires TransactionOk(b, tx) && tx.todo != []
    requires (tx.stage.Start? && stage.HasRead?) || (tx.stage.HasWritten? && stage.HasReread?)
    ensures TransactionOk(b, tx.(stage := stage))
  {
    forall cell ensures WritesAccounted(b, tx.(stage := stage), cell) {
      assert WritesAccounted(b, tx, cell);
    }
  }

  lemma ExecOk(s: System, id: nat)
    requires LocksHeld(s) && id in s.active && s.active[id].todo != []
    requires ExecStatement(s, id, s.active[id]).Some?
    ensures LocksHeld(s.(active := s.active[id := ExecStatement(s, id, s.active[id]).value]))
  {
    var tx := s.active[id];
    var p := tx.todo[0];
    match tx.stage {
      case Start => if IsManual(p) { WriteOk(s, id, p, None); }
          else { ReadOk(s.books, tx, HasRead(Visible(s, tx, p.cell))); }
      case HasRead(seen) => WriteOk(s, id, p, seen);
      case HasWritten(seen) => if IsManual(p) { ReadOk(s.books, tx, HasReread(Visible(s, tx, p.cell))); }
          else { InsertOk(s.books, tx, p, seen); }
      case HasReread(seen) => InsertOk(s.books, tx, p, seen);
    }
  }

  /** What a row holds beyond the sum of its movements. */
  function Gap(b: Books, cell: Cell): int {
    At(b.onHand, cell) - Balance(b.movements, cell)
  }

  lemma CommitOk(s: System, id: nat)
    requires LocksHeld(s) && id in s.active && s.active[id].todo == []
    ensures LocksHeld(Act(s, Commit(id)).value)
    ensures forall cell :: Gap(Act(s, Commit(id)).value.books, cell) == Gap(s.books, cell)
  {
    var tx := s.active[id];
    var s1 := Act(s, Commit(id)).value;
    forall cell ensures Gap(s1.books, cell) == Gap(s.books, cell) {
      assert WritesAccounted(s.books, tx, cell);
      SumConcat(s.books.movements, tx.pending, ChangeOf(cell));
    }
    forall other | other in s1.active ensures TransactionOk(s1.books, s1.active[other]) {
      assert TransactionOk(s.books, s.active[other]);
      forall cell ensures WritesAccounted(s1.books, s1.active[other], cell) {
        assert WritesAccounted(s.books, s.active[other], cell);
      }
    }
  }

  /** No action changes what any row holds beyond its movements. */
  lemma ActHolds(s: System, a: Action)
    requires LocksHeld(s) && Act(s, a).Some?
    ensures LocksHeld(Act(s, a).value)
    ensures forall cell :: Gap(Act(s, a).value.books, cell) == Gap(s.books, cell)
  {
    match a
    case Begin(id, ps) =>
    case Exec(id) => ExecOk(s, id);
    case Commit(id) => CommitOk(s, id);
    case Abort(id) =>
  }

  lemma ActOk(s: System, a: Action)
    requires SystemOk(s) && Act(s, a).Some?
    ensures SystemOk(Act(s, a).value)
  {
    ActHolds(s, a);
    forall cell ensures At(Act(s, a).value.books.onHand, cell) == Balance(Act(s, a).value.books.movements, cell) {
      assert Gap(Act(s, a).value.books, cell) == Gap(s.books, cell) == 0;
    }
  }

  /** Whatever the interleaving, committed balances are never negative and always equal what
      the committed movements sum to, although `quantity_before` may have been read stale. */
  lemma {:induction false} InterleavingsKeepTheBooks(s: System, schedule: seq<Action>)
    requires SystemOk(s) && Play(s, schedule).Some?
    ensures SystemOk(Play(s, schedule).value)
    decreases |schedule|
  {
    if schedule != [] {
      ActOk(s, schedule[0]);
      InterleavingsKeepTheBooks(Act(s, schedule[0]).value, schedule[1..]);
    }
  }

  /** In particular from an idle database with sound books. */
  lemma CommittedStockIsSafe(b: Books, schedule: seq<Action>, cell: Cell)
    requires Sound(b) && Play(System(b, map[]), schedule).Some?
    ensures var b1 := Play(System(b, map[]), schedule).value.books;
      0 <= At(b1.onHand, cell) == Balance(b1.movements, cell)
  {
    InterleavingsKeepTheBooks(System(b, map[]), schedule);
  }
}
