/** How the statement-level model relates to the serial one, and what interleaving costs. */
module RowLockTheorems {
  import opened Basics
  import opened Sums
  import opened RunningLedger
  import opened StockBooks
  import opened StockData
  import opened OrderStock
  import opened TransferStock
  import opened PurchaseStock
  import opened ReturnStock
  import opened StockRuns
  import opened RowLocks

  // ---- A transaction that runs alone does what the service says ----

  function SoloTail(id: nat, n: nat): seq<Action> {
    if n == 0 then [Commit(id)] else [Exec(id), Exec(id), Exec(id)] + SoloTail(id, n - 1)
  }

  /** Begin, every statement, commit, and nothing in between. */
  function Solo(id: nat, ps: seq<Posting>): seq<Action> {
    [Begin(id, ps)] + SoloTail(id, |ps|)
  }

  /** What the transaction would leave behind if it committed now. */
  function Merged(b: Books, tx: Transaction): Books {
    Books(b.onHand + tx.writes, b.movements + tx.pending)
  }

  /** The rows that the restores of a cancelled order update exist, and adjustments add. */
  predicate AdjustmentsPass(b: Books, ps: seq<Posting>) {
    forall p :: p in ps && p.kind.Adjustment? ==> if IsManual(p) then p.change > 0 else p.cell in b.onHand
  }

  lemma ActExec(b: Books, id: nat, tx: Transaction, tx1: Transaction)
    requires tx.todo != [] && ExecStatement(System(b, map[id := tx]), id, tx) == Some(tx1)
    ensures Act(System(b, map[id := tx]), Exec(id)) == Some(System(b, map[id := tx1]))
  {
    assert map[id := tx][id := tx1] == map[id := tx1];
  }

  lemma MergedEntered(b: Books, tx: Transaction, p: Posting)
    requires !p.kind.Damage?
    ensures var held := At(Merged(b, tx).onHand, p.cell);
      Books(b.onHand + tx.writes[p.cell := held + p.change],
            b.movements + (tx.pending + [Entry(p.cell, p.change, held, held + p.change, true, p)]))
      == Entered(Merged(b, tx), p)
  {
    var held := At(Merged(b, tx).onHand, p.cell);
    assert b.onHand + tx.writes[p.cell := held + p.change] == (b.onHand + tx.writes)[p.cell := held + p.change];
  }

  /** The value and the movement the statements of one posting arrive at. */
  lemma SoloRow(b: Books, id: nat, tx: Transaction, p: Posting)
    requires Stocked(Merged(b, tx))
    ensures Visible(System(b, map[id := tx]), tx, p.cell)
         == if p.cell in Merged(b, tx).onHand then Some(At(Merged(b, tx).onHand, p.cell)) else None
  {
  }

  lemma SoloStatements(b: Books, id: nat, tx: Transaction)
      returns (tx1: Transaction, tx2: Transaction, tx3: Transaction)
    requires tx.todo != [] && tx.stage == Start && Interleaved(tx.todo[0])
    requires Legal(Merged(b, tx), tx.todo[0]) && AdjustmentsPass(Merged(b, tx), [tx.todo[0]])
    requires Stocked(Merged(b, tx))
    ensures ExecStatement(System(b, map[id := tx]), id, tx) == Some(tx1)
    ensures ExecStatement(System(b, map[id := tx1]), id, tx1) == Some(tx2)
    ensures ExecStatement(System(b, map[id := tx2]), id, tx2) == Some(tx3)
    ensures tx1.todo == tx2.todo == tx.todo
    ensures var p := tx.todo[0];
      var held := At(Merged(b, tx).onHand, p.cell);
      tx3 == Transaction(tx.todo[1..], Start, tx.writes[p.cell := held + p.change],
                         tx.pending + [Entry(p.cell, p.change, held, held + p.change, true, p)])
  {
    var p := tx.todo[0];
    var row := Visible(System(b, map[id := tx]), tx, p.cell);
    var held := At(Merged(b, tx).onHand, p.cell);
    SoloRow(b, id, tx, p);
    assert p in [p];
    var writes := tx.writes[p.cell := held + p.change];
    if IsManual(p) {
      tx1 := tx.(stage := HasWritten(None), writes := writes);
      tx2 := tx1.(stage := HasReread(Some(held + p.change)));
    } else {
      tx1 := tx.(stage := HasRead(row));
      tx2 := tx.(stage := HasWritten(row), writes := writes);
    }
    tx3 := Transaction(tx.todo[1..], Start, writes, tx.pending
        + [Entry(p.cell, p.change, held, held + p.change, true, p)]);
    assert Free(System(b, map[id := tx]), id, p.cell) && Free(System(b, map[id := tx1]), id, p.cell);
  }

  lemma SoloPosting(b: Books, id: nat, tx: Transaction) returns (tx1: Transaction, tx2: Transaction, tx3: Transaction)
    requires tx.todo != [] && tx.stage == Start && Interleaved(tx.todo[0])
    requires Legal(Merged(b, tx), tx.todo[0]) && AdjustmentsPass(Merged(b, tx), [tx.todo[0]])
    requires Stocked(Merged(b, tx))
    ensures Act(System(b, map[id := tx]), Exec(id)) == Some(System(b, map[id := tx1]))
    ensures Act(System(b, map[id := tx1]), Exec(id)) == Some(System(b, map[id := tx2]))
    ensures Act(System(b, map[id := tx2]), Exec(id)) == Some(System(b, map[id := tx3]))
    ensures tx3.todo == tx.todo[1..] && tx3.stage == Start
    ensures Merged(b, tx3) == Entered(Merged(b, tx), tx.todo[0])
  {
    tx1, tx2, tx3 := SoloStatements(b, id, tx);
    ActExec(b, id, tx, tx1);
    ActExec(b, id, tx1, tx2);
    ActExec(b, id, tx2, tx3);
    MergedEntered(b, tx, tx.todo[0]);
  }

  lemma PlayThree(s: System, s1: System, s2: System, s3: System, a: Action, rest: seq<Action>)
    requires Act(s, a) == Some(s1) && Act(s1, a) == Some(s2) && Act(s2, a) == Some(s3)
    ensures Play(s, [a, a, a] + rest) == Play(s3, rest)
  {
    var all := [a, a, a] + rest;
    assert all[1..] == [a, a] + rest && all[1..][1..] == [a] + rest && all[1..][1..][1..] == rest;
    assert Play(s2, all[1..][1..]) == Play(s3, rest);
    assert Play(s1, all[1..]) == Play(s2, all[1..][1..]);
  }

  lemma SoloCommit(b: Books, id: nat, tx: Transaction)
    requires tx.todo == []
    ensures Play(System(b, map[id := tx]), SoloTail(id, 0)) == Some(System(Merged(b, tx), map[]))
  {
    var s := System(b, map[id := tx]);
    assert s.active - {id} == map[];
    assert Act(s, Commit(id)) == Some(System(Merged(b, tx), map[]));
    assert SoloTail(id, 0)[1..] == [];
  }

  /** Entering the first posting leaves the rest ready to be entered. */
  lemma SoloReady(b: Books, ps: seq<Posting>)
    requires ps != [] && LegalAll(b, ps) && AdjustmentsPass(b, ps) && Stocked(b)
    requires forall p :: p in ps ==> Interleaved(p)
    ensures Legal(b, ps[0]) && AdjustmentsPass(b, [ps[0]]) && Interleaved(ps[0])
    ensures forall p :: p in ps[1..] ==> Interleaved(p)
    ensures var b1 := Entered(b, ps[0]);
      && LegalAll(b1, ps[1..]) && AdjustmentsPass(b1, ps[1..]) && Stocked(b1)
      && EnteredAll(b, ps) == EnteredAll(b1, ps[1..])
  {
  }

  lemma {:induction false} SoloRuns(b: Books, id: nat, tx: Transaction, merged: Books)
    requires tx.stage == Start && forall p :: p in tx.todo ==> Interleaved(p)
    requires merged == Merged(b, tx) && Stocked(merged)
    requires LegalAll(merged, tx.todo) && AdjustmentsPass(merged, tx.todo)
    ensures Play(System(b, map[id := tx]), SoloTail(id, |tx.todo|)) == Some(System(EnteredAll(merged, tx.todo), map[]))
    decreases |tx.todo|
  {
    if tx.todo == [] {
      SoloCommit(b, id, tx);
    } else {
      SoloReady(merged, tx.todo);
      var tx1, tx2, tx3 := SoloPosting(b, id, tx);
      SoloRuns(b, id, tx3, Entered(merged, tx.todo[0]));
      PlayThree(System(b, map[id := tx]), System(b, map[id := tx1]), System(b, map[id := tx2]),
                System(b, map[id := tx3]), Exec(id), SoloTail(id, |tx.todo| - 1));
    }
  }

  /** Statement by statement and alone, a transaction leaves exactly the books that entering
      its postings leaves. */
  lemma SoloIsSerial(b: Books, id: nat, ps: seq<Posting>)
    requires Stocked(b) && LegalAll(b, ps) && AdjustmentsPass(b, ps)
    requires forall p :: p in ps ==> Interleaved(p)
    ensures Play(System(b, map[]), Solo(id, ps)) == Some(System(EnteredAll(b, ps), map[]))
  {
    var tx := Transaction(ps, Start, map[], []);
    assert Merged(b, tx) == b by {
      assert b.onHand + map[] == b.onHand && b.movements + [] == b.movements;
    }
    var s := System(b, map[]);
    assert Act(s, Begin(id, ps)) == Some(System(b, map[id := tx]));
    assert Solo(id, ps)[1..] == SoloTail(id, |ps|);
    SoloRuns(b, id, tx, b);
  }

  predicate Interleaves(step: Step) {
    step.PlaceOrder? || step.Cancel? || step.Adjust? || step.Ship? || step.ReceiveGoods?
  }

  /** Restoring succeeds only where every row exists. */
  lemma {:induction false} RestoredRowsExist(b: Books, products: seq<Product>, order: nat, branch: nat,
      lines: seq<OrderLine>)
    requires RestoreLines(b, products, order, branch, lines).Ok?
    ensures forall p :: p in Postings(products, lines, Restores(order, branch)) ==> p.cell in b.onHand
    decreases |lines|
  {
    if lines != [] {
      var b1 := RestoreLine(b, products, order, branch, lines[0]).value;
      RestoredRowsExist(b1, products, order, branch, lines[1..]);
      assert b1.onHand.Keys == b.onHand.Keys;
    }
  }

  /** The postings of one of the five services, as the statement-level model can play them. */
  lemma ServicePostings(db: Db, step: Step) returns (ps: seq<Posting>)
    requires Inv(db) && Interleaves(step) && Apply(db, step).Ok?
    ensures LegalAll(db.books, ps) && AdjustmentsPass(db.books, ps) && forall p :: p in ps ==> Interleaved(p)
    ensures Apply(db, step).value.books == EnteredAll(db.books, ps)
  {
    match step {
      case PlaceOrder(q) =>
        ps := [];
        if CreateOrder(db, q).value.1 == |db.orders| {
          ps := CreatedBooks(db, q);
        }
      case Cancel(org, id) =>
        ps := CancelledBooks(db, org, id);
        RestoredRowsExist(db.books, db.products, id, db.orders[id].branch, db.orders[id].lines);
      case Adjust(branch, product, adjustment, lot) =>
        ps := [AdjustPosting(branch, product, adjustment, lot)];
        AdjustmentEnters(db, branch, product, adjustment, lot);
        assert ps[1..] == [];
      case Ship(org, id, lines) =>
        var t := db.transfers[id];
        assert t in db.transfers && TransferOk(t);
        ps := ShipAllMoves(Shipping(db.books, t.items), id, t.source, lines);
      case ReceiveGoods(org, id, branch, lines) =>
        ps := StoreAllInStep(Receipt(db.books, db.purchases[id].items, db.receipts, db.lots, false), id,
            db.receivings, branch, lines);
    }
  }

  /** So each of the five services, run alone by statements, leaves the books the serial model
      leaves. */
  lemma ServiceAloneIsSerial(db: Db, step: Step, id: nat) returns (ps: seq<Posting>)
    requires Inv(db) && Interleaves(step) && Apply(db, step).Ok?
    ensures Play(System(db.books, map[]), Solo(id, ps)) == Some(System(Apply(db, step).value.books, map[]))
  {
    ps := ServicePostings(db, step);
    SoloIsSerial(db.books, id, ps);
  }

  // ---- Stale reads ----

  lemma {:induction false} PlayPush(s: System, schedule: seq<Action>, mid: System, a: Action, next: System)
    requires Play(s, schedule) == Some(mid) && Act(mid, a) == Some(next)
    ensures Play(s, schedule + [a]) == Some(next)
    decreases |schedule|
  {
    if schedule == [] {
      assert (schedule + [a])[1..] == [];
    } else {
      assert (schedule + [a])[1..] == schedule[1..] + [a];
      PlayPush(Act(s, schedule[0]).value, schedule[1..], mid, a, next);
    }
  }

  /** A sale reads the balance; an adjustment of the same row runs and commits meanwhile. */
  lemma AdjustmentOvertakes(b: Books, cell: Cell, sale: Posting, up: Posting) returns (schedule: seq<Action>)
    requires b.onHand == map[cell := 5]
    requires sale == Posting(Sale, cell, -2, OrderRef(0), None)
        && up == Posting(Adjustment, cell, 3, AdjustmentRef, None)
    ensures Play(System(b, map[]), schedule)
         == Some(System(Books(map[cell := 8], b.movements + [Entry(cell, 3, 5, 8, true, up)]),
                        map[0 := Transaction([sale], HasRead(Some(5)), map[], [])]))
  {
    var s := System(b, map[]);
    var reader := Transaction([sale], HasRead(Some(5)), map[], []);
    var s1 := System(b, map[0 := Transaction([sale], Start, map[], [])]);
    assert Act(s, Begin(0, [sale])) == Some(s1);
    PlayPush(s, [], s, Begin(0, [sale]), s1);
    var s2 := System(b, map[0 := reader]);
    assert Act(s1, Exec(0)).value.active == s2.active;
    PlayPush(s, [Begin(0, [sale])], s1, Exec(0), s2);
    schedule := [Begin(0, [sale]), Exec(0)];
    var s3 := System(b, map[0 := reader, 1 := Transaction([up], Start, map[], [])]);
    assert Act(s2, Begin(1, [up])).value.active == s3.active;
    PlayPush(s, schedule, s2, Begin(1, [up]), s3);
    schedule := schedule + [Begin(1, [up])];
    var s4 := System(b, map[0 := reader, 1 := Transaction([up], HasWritten(None), map[cell := 8], [])]);
    assert Free(s3, 1, cell);
    assert Act(s3, Exec(1)).value.active == s4.active;
    PlayPush(s, schedule, s3, Exec(1), s4);
    schedule := schedule + [Exec(1)];
    var s5 := System(b, map[0 := reader, 1 := Transaction([up], HasReread(Some(8)), map[cell := 8], [])]);
    assert Act(s4, Exec(1)).value.active == s5.active;
    PlayPush(s, schedule, s4, Exec(1), s5);
    schedule := schedule + [Exec(1)];
    var entry := Entry(cell, 3, 5, 8, true, up);
    assert [up][1..] == [] && [] + [entry] == [entry];
    var s6 := System(b, map[0 := reader, 1 := Transaction([], Start, map[cell := 8], [entry])]);
    assert Act(s5, Exec(1)).value.active == s6.active;
    PlayPush(s, schedule, s5, Exec(1), s6);
    schedule := schedule + [Exec(1)];
    var s7 := System(Books(map[cell := 8], b.movements + [entry]), map[0 := reader]);
    assert b.onHand + map[cell := 8] == map[cell := 8] && s6.active - {1} == s7.active;
    PlayPush(s, schedule, s6, Commit(1), s7);
    schedule := schedule + [Commit(1)];
  }

  /** The sale then takes 2 from the latest balance but records the one it read. */
  lemma SaleGoesOn(b: Books, cell: Cell, sale: Posting, start: System, schedule0: seq<Action>)
      returns (schedule: seq<Action>)
    requires b.onHand == map[cell := 8] && sale == Posting(Sale, cell, -2, OrderRef(0), None)
    requires Play(start, schedule0) == Some(System(b, map[0 := Transaction([sale], HasRead(Some(5)), map[], [])]))
    ensures Play(start, schedule)
         == Some(System(Books(map[cell := 6], b.movements + [Entry(cell, -2, 5, 3, true, sale)]), map[]))
  {
    schedule := schedule0;
    var s := System(b, map[0 := Transaction([sale], HasRead(Some(5)), map[], [])]);
    var s1 := System(b, map[0 := Transaction([sale], HasWritten(Some(5)), map[cell := 6], [])]);
    assert Free(s, 0, cell);
    assert Act(s, Exec(0)).value.active == s1.active;
    PlayPush(start, schedule, s, Exec(0), s1);
    schedule := schedule + [Exec(0)];
    var entry := Entry(cell, -2, 5, 3, true, sale);
    assert [sale][1..] == [] && [] + [entry] == [entry];
    var s2 := System(b, map[0 := Transaction([], Start, map[cell := 6], [entry])]);
    assert Act(s1, Exec(0)).value.active == s2.active;
    PlayPush(start, schedule, s1, Exec(0), s2);
    schedule := schedule + [Exec(0)];
    var s3 := System(Books(map[cell := 6], b.movements + [entry]), map[]);
    assert b.onHand + map[cell := 6] == map[cell := 6] && s2.active - {0} == map[];
    PlayPush(start, schedule, s2, Commit(0), s3);
    schedule := schedule + [Commit(0)];
  }

  /** From sound books holding 5 units, a sale of 2 interleaved with an adjustment by 3 ends
      with 6 on hand and a latest `quantity_after` of 3: the balance is right, the chain is not. */
  lemma StaleReadBreaksTheChain() returns (b: Books, schedule: seq<Action>)
    ensures Sound(b) && Play(System(b, map[]), schedule).Some?
    ensures var b1 := Play(System(b, map[]), schedule).value.books;
      && At(b1.onHand, Cell(0, 0)) == 6 && LastAfter(b1.movements, Cell(0, 0)) == 3
      && !Chained(b1.movements)
  {
    var cell := Cell(0, 0);
    var up := Posting(Adjustment, cell, 3, AdjustmentRef, None);
    var sale := Posting(Sale, cell, -2, OrderRef(0), None);
    var five := Posting(Adjustment, cell, 5, AdjustmentRef, None);
    b := Entered(Books(map[], []), five);
    EnteredSound(Books(map[], []), five);
    schedule := AdjustmentOvertakes(b, cell, sale, up);
    var mid := Play(System(b, map[]), schedule).value.books;
    schedule := SaleGoesOn(mid, cell, sale, System(b, map[]), schedule);
    var ms := Play(System(b, map[]), schedule).value.books.movements;
    assert ms[..2] == mid.movements && LastAfter(mid.movements, cell) == 8;
    assert ms[2].before == 5;
  }

  // ---- Exactly when the movements chain ----

  /** The balance a movement is entered from, by the locked row, against the one the service
      recorded as `quantity_before`; a service that recorded none cannot go on. */
  predicate RecordsWell(p: Posting, seen: Option<int>, value: int) {
    IsManual(p) || BeforeOf(p, seen) in {None, Some(value - p.change)}
  }

  /** The UPDATE of a row works on another balance than the SELECT before it returned. */
  predicate Overtaken(s: System, a: Action) {
    a.Exec? && a.id in s.active &&
    var tx := s.active[a.id];
    tx.todo != [] && tx.stage.HasRead? &&
    var v := Updated(s, a.id, tx, tx.todo[0]);
    v.Some? && !RecordsWell(tx.todo[0], tx.stage.seen, v.value)
  }

  /** The transactions that were overtaken, after one more action. */
  function OvertakenAfter(s: System, overtaken: set<nat>, a: Action): set<nat> {
    match a
    case Exec(id) => if Overtaken(s, a) then overtaken + {id} else overtaken
    case _ => overtaken - {a.id}
  }

  /** A transaction that was overtaken commits. */
  predicate OvertakenCommits(s: System, overtaken: set<nat>, schedule: seq<Action>)
    decreases |schedule|
  {
    schedule != [] &&
    var a := schedule[0];
    || (a.Commit? && a.id in overtaken)
    || (Act(s, a).Some? && OvertakenCommits(Act(s, a).value, OvertakenAfter(s, overtaken, a), schedule[1..]))
  }

  /** A pending movement starts where the committed and the earlier pending ones stopped. */
  ghost predicate EntryChains(b: Books, pending: seq<Movement>, i: nat)
    requires i < |pending|
  {
    var m := pending[i];
    && m.before == At(b.onHand, m.key) + Balance(pending[..i], m.key)
    && m.after == m.before + m.change
  }

  /** A transaction holds the row of every movement it has recorded or is about to record. */
  ghost predicate HoldsRows(tx: Transaction) {
    && (forall m :: m in tx.pending ==> m.key in tx.writes && m.counts)
    && (tx.todo != [] && (tx.stage.HasWritten? || tx.stage.HasReread?) ==>
          var p := tx.todo[0];
          p.cell in tx.writes
          && (tx.stage.HasReread? ==> tx.stage.seen == Some(tx.writes[p.cell]) && IsManual(p)))
  }

  ghost predicate OutstandingRight(tx: Transaction) {
    tx.todo != [] && tx.stage.HasWritten? && tx.todo[0].cell in tx.writes ==>
      RecordsWell(tx.todo[0], tx.stage.seen, tx.writes[tx.todo[0].cell])
  }

  ghost predicate PendingRight(b: Books, pending: seq<Movement>) {
    forall i :: 0 <= i < |pending| ==> EntryChains(b, pending, i)
  }

  /** What a transaction has pending continues the committed chains. */
  ghost predicate RecordsRight(b: Books, tx: Transaction) {
    PendingRight(b, tx.pending) && OutstandingRight(tx)
  }

  /** The overtaken transactions are those whose records are wrong. */
  ghost predicate Marked(s: System, overtaken: set<nat>) {
    && overtaken <= s.active.Keys
    && forall id :: id in s.active ==>
         HoldsRows(s.active[id]) && (id in overtaken <==> !RecordsRight(s.books, s.active[id]))
  }

  lemma PendingPush(b: Books, pending: seq<Movement>, m: Movement)
    ensures PendingRight(b, pending + [m]) <==>
              PendingRight(b, pending)
              && m.before == At(b.onHand, m.key) + Balance(pending, m.key) && m.after == m.before + m.change
  {
    var all := pending + [m];
    assert all[..|pending|] == pending;
    forall i | 0 <= i < |pending| ensures EntryChains(b, all, i) <==> EntryChains(b, pending, i) {
      assert all[..i] == pending[..i];
    }
    if PendingRight(b, all) {
      assert EntryChains(b, all, |pending|);
      forall i | 0 <= i < |pending| ensures EntryChains(b, pending, i) {
        assert EntryChains(b, all, i);
      }
    }
  }

  /** Recording the movement keeps right what was right and wrong what was wrong. */
  lemma InsertMarks(b: Books, tx: Transaction, p: Posting)
    requires TransactionOk(b, tx) && HoldsRows(tx) && tx.todo != [] && tx.todo[0] == p
    requires tx.stage.HasReread? || (tx.stage.HasWritten? && !IsManual(p))
    requires Insert(tx, p, tx.stage.seen).Some?
    ensures var tx1 := Insert(tx, p, tx.stage.seen).value;
      HoldsRows(tx1) && (RecordsRight(b, tx1) <==> RecordsRight(b, tx))
  {
    assert WritesAccounted(b, tx, p.cell);
    PendingPush(b, tx.pending, Recorded(p, tx.stage.seen).value);
  }

  lemma ExecMarks(s: System, id: nat)
    requires SystemOk(s) && id in s.active && s.active[id].todo != [] && HoldsRows(s.active[id])
    requires ExecStatement(s, id, s.active[id]).Some?
    ensures var tx1 := ExecStatement(s, id, s.active[id]).value;
      HoldsRows(tx1) && (RecordsRight(s.books, tx1) <==> RecordsRight(s.books, s.active[id]) && !Overtaken(s, Exec(id)))
  {
    var tx := s.active[id];
    var p := tx.todo[0];
    if tx.stage.HasReread? || (tx.stage.HasWritten? && !IsManual(p)) {
      InsertMarks(s.books, tx, p);
    }
  }

  /** A commit changes nothing that another transaction's records depend on. */
  lemma OthersUnmarked(s: System, id: nat, other: nat)
    requires SystemOk(s) && id in s.active && s.active[id].todo == []
    requires other in s.active && other != id && HoldsRows(s.active[other])
    ensures RecordsRight(Act(s, Commit(id)).value.books, s.active[other]) <==> RecordsRight(s.books, s.active[other])
  {
    var b1, pending := Act(s, Commit(id)).value.books, s.active[other].pending;
    forall i | 0 <= i < |pending| ensures EntryChains(b1, pending, i) <==> EntryChains(s.books, pending, i) {
      assert pending[i] in pending;
    }
  }

  lemma ActMarks(s: System, overtaken: set<nat>, a: Action)
    requires SystemOk(s) && Marked(s, overtaken) && Act(s, a).Some?
    ensures Marked(Act(s, a).value, OvertakenAfter(s, overtaken, a))
  {
    match a {
      case Begin(id, ps) =>
      case Exec(id) => ExecMarks(s, id);
      case Commit(id) =>
        forall other | other in s.active && other != id
          ensures RecordsRight(Act(s, a).value.books, s.active[other]) <==> RecordsRight(s.books, s.active[other])
        {
          OthersUnmarked(s, id, other);
        }
      case Abort(id) =>
    }
  }

  /** Committed and pending movements chain together exactly when each part does. */
  lemma {:induction false} ChainedTogether(b: Books, pending: seq<Movement>)
    requires BooksAgree(b) && forall m :: m in pending ==> m.counts
    ensures Chained(b.movements + pending) <==> Chained(b.movements) && PendingRight(b, pending)
    decreases |pending|
  {
    if pending == [] {
      assert b.movements + pending == b.movements;
    } else {
      var n := |pending| - 1;
      var front, m := b.movements + pending[..n], pending[n];
      assert pending == pending[..n] + [m] && b.movements + pending == front + [m];
      ChainedTogether(b, pending[..n]);
      PendingPush(b, pending[..n], m);
      SumConcat(b.movements, pending[..n], ChangeOf(m.key));
      ChainedPushExactly(front, m);
    }
  }

  lemma ChainedPushExactly(es: seq<Movement>, e: Movement)
    requires e.counts
    ensures Chained(es + [e]) <==> Chained(es) && e.before == Balance(es, e.key) && e.after == e.before + e.change
  {
    var all := es + [e];
    assert all[..|es|] == es;
    if Chained(all) {
      ChainedPrefix(all, |es|);
      ChainedBalance(es, e.key);
      assert all[|es|].before == LastAfter(all[..|es|], e.key);
    } else if Chained(es) && e.before == Balance(es, e.key) && e.after == e.before + e.change {
      ChainedPush(es, e);
    }
  }

  /** Committed movements stay committed, in place. */
  lemma {:induction false} MovementsStay(s: System, schedule: seq<Action>)
    requires Play(s, schedule).Some?
    ensures s.books.movements <= Play(s, schedule).value.books.movements
    decreases |schedule|
  {
    if schedule != [] {
      MovementsStay(Act(s, schedule[0]).value, schedule[1..]);
    }
  }

  lemma StaysBroken(s: System, schedule: seq<Action>)
    requires Play(s, schedule).Some? && !Chained(s.books.movements)
    ensures !Chained(Play(s, schedule).value.books.movements)
  {
    MovementsStay(s, schedule);
    var ms := Play(s, schedule).value.books.movements;
    assert ms[..|s.books.movements|] == s.books.movements;
    if Chained(ms) {
      ChainedPrefix(ms, |s.books.movements|);
    }
  }

  lemma {:induction false} ChainsExactly(s: System, overtaken: set<nat>, schedule: seq<Action>)
    requires SystemOk(s) && Marked(s, overtaken) && Chained(s.books.movements) && Play(s, schedule).Some?
    ensures Chained(Play(s, schedule).value.books.movements) <==> !OvertakenCommits(s, overtaken, schedule)
    decreases |schedule|
  {
    if schedule != [] {
      var a := schedule[0];
      var s1 := Act(s, a).value;
      ActOk(s, a);
      ActMarks(s, overtaken, a);
      if a.Commit? {
        ChainedTogether(s.books, s.active[a.id].pending);
      }
      if a.Commit? && a.id in overtaken {
        assert !RecordsRight(s.books, s.active[a.id]);
        StaysBroken(s1, schedule[1..]);
        assert OvertakenCommits(s, overtaken, schedule);
      } else {
        assert Chained(s1.books.movements);
        ChainsExactly(s1, OvertakenAfter(s, overtaken, a), schedule[1..]);
        assert OvertakenCommits(s, overtaken, schedule)
            <==> OvertakenCommits(s1, OvertakenAfter(s, overtaken, a), schedule[1..]);
      }
    }
  }

  /** Under any interleaving from an idle database with sound books the movements chain, as
      after a serial run, exactly when no transaction commits after one of its UPDATEs worked
      on another balance than it had read. */
  lemma ChainsUnlessOvertakenCommits(b: Books, schedule: seq<Action>)
    requires Sound(b) && Play(System(b, map[]), schedule).Some?
    ensures Chained(Play(System(b, map[]), schedule).value.books.movements)
       <==> !OvertakenCommits(System(b, map[]), {}, schedule)
  {
    ChainsExactly(System(b, map[]), {}, schedule);
  }
}
