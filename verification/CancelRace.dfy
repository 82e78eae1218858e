/** Cancelling one order concurrently.  `cancel_order` reads the status without a lock and does
    not look at it again, so the status row takes no part in the locking of `RowLocks`. */
module CancelRace {
  import opened Basics
  import opened Sums
  import opened RunningLedger
  import opened StockBooks
  import opened OrderWorkflow
  import opened StockData
  import opened OrderStock
  import opened ReturnStock
  import opened StockRuns
  import opened RowLocks

  /** The order in question, and the catalogue its cancellation reads. */
  datatype Subject = Subject(id: nat, branch: nat, products: seq<Product>, lines: seq<OrderLine>)

  /** The stock side, the order's committed status, whether a cancellation of it has committed,
      and the transactions that are cancelling it. */
  datatype Race = Race(system: System, status: Status, cancelled: bool, cancels: set<nat>)

  datatype Move = StartCancel(id: nat) | Stock(action: Action) | WriteStatus(target: Status)

  function Restoring(o: Subject): seq<Posting> {
    Postings(o.products, o.lines, Restores(o.id, o.branch))
  }

  predicate Concerns(o: Subject, p: Posting) {
    p.reference == OrderRef(o.id)
  }

  /** One move; None when it is not enabled.  Only cancellations post for the placed order. */
  function Make(o: Subject, r: Race, m: Move): Option<Race> {
    match m
    case StartCancel(id) =>
      var s := if Cancellable(r.status) then Act(r.system, Begin(id, Restoring(o))) else None;
      if s.Some? then Some(r.(system := s.value, cancels := r.cancels + {id})) else None
    case Stock(a) =>
      var s := if a.Begin? && (exists p :: p in a.postings && Concerns(o, p)) then None else Act(r.system, a);
      if s.None? then None
      else if a.Commit? && a.id in r.cancels then Some(Race(s.value, Cancelled, true, r.cancels - {a.id}))
      else Some(r.(system := s.value, cancels := if a.Abort? then r.cancels - {a.id} else r.cancels))
    case WriteStatus(target) =>
      if Moves(r.status, target) then Some(r.(status := target)) else None
  }

  function MakeAll(o: Subject, r: Race, ms: seq<Move>): Option<Race>
    decreases |ms|
  {
    if ms == [] then Some(r)
    else
      var r1 := Make(o, r, ms[0]);
      if r1.Some? then MakeAll(o, r1.value, ms[1..]) else None
  }

  predicate CommitsCancel(r: Race, m: Move) {
    m.Stock? && m.action.Commit? && m.action.id in r.cancels
  }

  /** The cancellations that commit along the way. */
  function Cancellations(o: Subject, r: Race, ms: seq<Move>): nat
    decreases |ms|
  {
    if ms == [] || Make(o, r, ms[0]).None? then 0
    else (if CommitsCancel(r, ms[0]) then 1 else 0) + Cancellations(o, Make(o, r, ms[0]).value, ms[1..])
  }

  /** A cancellation commits although another one had committed before. */
  predicate CancelsTwice(o: Subject, r: Race, ms: seq<Move>)
    decreases |ms|
  {
    ms != [] && Make(o, r, ms[0]).Some?
    && ((CommitsCancel(r, ms[0]) && r.cancelled) || CancelsTwice(o, Make(o, r, ms[0]).value, ms[1..]))
  }

  // ---- What the cancellations post ----

  function Infos(ms: seq<Movement>): seq<Posting> {
    seq(|ms|, i requires 0 <= i < |ms| => ms[i].info)
  }

  lemma {:induction false} TallyInfos(ms: seq<Movement>, weight: Posting -> int)
    ensures Tally(ms, weight) == Sum(Infos(ms), weight)
  {
    if ms != [] {
      var n := |ms| - 1;
      TallyInfos(ms[..n], weight);
      assert Infos(ms)[..n] == Infos(ms[..n]);
    }
  }

  /** A cancellation has recorded, or still has to record, the restores; others none of them. */
  ghost predicate PostsOwn(o: Subject, tx: Transaction, cancels: bool) {
    if cancels then Infos(tx.pending) + tx.todo == Restoring(o)
    else forall p :: p in Infos(tx.pending) + tx.todo ==> !Concerns(o, p)
  }

  ghost predicate RaceOk(o: Subject, r: Race) {
    r.cancels <= r.system.active.Keys
    && forall id :: id in r.system.active ==> PostsOwn(o, r.system.active[id], id in r.cancels)
  }

  lemma ExecPosts(s: System, id: nat, tx: Transaction)
    requires tx.todo != [] && ExecStatement(s, id, tx).Some?
    ensures var tx1 := ExecStatement(s, id, tx).value;
      Infos(tx1.pending) + tx1.todo == Infos(tx.pending) + tx.todo
  {
    var tx1 := ExecStatement(s, id, tx).value;
    if |tx1.pending| > |tx.pending| {
      assert Infos(tx1.pending) == Infos(tx.pending) + [tx.todo[0]];
      assert tx.todo == [tx.todo[0]] + tx.todo[1..];
    }
  }

  lemma MakeOk(o: Subject, r: Race, m: Move)
    requires RaceOk(o, r) && Make(o, r, m).Some?
    ensures RaceOk(o, Make(o, r, m).value)
  {
    if m.Stock? && m.action.Exec? {
      ExecPosts(r.system, m.action.id, r.system.active[m.action.id]);
    } else if m.StartCancel? {
      assert Infos([]) + Restoring(o) == Restoring(o);
    } else if m.Stock? && m.action.Begin? {
      assert Infos([]) + m.action.postings == m.action.postings;
    }
  }

  /** A commit adds the whole demand to what the order's movements sum to, or nothing. */
  lemma CommitTallies(o: Subject, r: Race, id: nat, product: nat)
    requires RaceOk(o, r) && id in r.system.active && r.system.active[id].todo == []
    ensures Tally(r.system.active[id].pending, ForOrder(o.id, product))
         == if id in r.cancels then TrackedDemand(o.products, o.lines, product) else 0
  {
    var pending := r.system.active[id].pending;
    TallyInfos(pending, ForOrder(o.id, product));
    assert Infos(pending) + [] == Infos(pending);
    if id in r.cancels {
      PostingsSum(o.products, o.lines, Restores(o.id, o.branch), ForOrder(o.id, product), product, 1);
    } else {
      forall i | 0 <= i < |pending| ensures ForOrder(o.id, product)(Infos(pending)[i]) == 0 {
        assert Infos(pending)[i] in Infos(pending);
      }
      SumZero(Infos(pending), ForOrder(o.id, product));
    }
  }

  lemma MakeTallies(o: Subject, r: Race, m: Move, product: nat)
    requires RaceOk(o, r) && Make(o, r, m).Some?
    ensures Tally(Make(o, r, m).value.system.books.movements, ForOrder(o.id, product))
         == Tally(r.system.books.movements, ForOrder(o.id, product))
            + if CommitsCancel(r, m) then TrackedDemand(o.products, o.lines, product) else 0
  {
    if m.Stock? && m.action.Commit? {
      CommitTallies(o, r, m.action.id, product);
      SumConcat(r.system.books.movements, r.system.active[m.action.id].pending, OnPosting(ForOrder(o.id, product)));
    }
  }

  /** Each cancellation that commits restores the whole demand of the order once more. */
  lemma {:induction false} CancellationsAddUp(o: Subject, r: Race, ms: seq<Move>, product: nat)
    requires RaceOk(o, r) && MakeAll(o, r, ms).Some?
    ensures Tally(MakeAll(o, r, ms).value.system.books.movements, ForOrder(o.id, product))
         == Tally(r.system.books.movements, ForOrder(o.id, product))
            + Cancellations(o, r, ms) * TrackedDemand(o.products, o.lines, product)
    decreases |ms|
  {
    if ms != [] {
      MakeOk(o, r, ms[0]);
      MakeTallies(o, r, ms[0], product);
      CancellationsAddUp(o, Make(o, r, ms[0]).value, ms[1..], product);
      OneMore(Cancellations(o, Make(o, r, ms[0]).value, ms[1..]), TrackedDemand(o.products, o.lines, product));
    }
  }

  lemma OneMore(n: nat, demand: int)
    ensures (1 + n) * demand == demand + n * demand
  {
  }

  lemma {:induction false} OnceUnlessTwice(o: Subject, r: Race, ms: seq<Move>)
    requires MakeAll(o, r, ms).Some?
    ensures Cancellations(o, r, ms) <= (if r.cancelled then 0 else 1) <==> !CancelsTwice(o, r, ms)
    decreases |ms|
  {
    if ms != [] {
      OnceUnlessTwice(o, Make(o, r, ms[0]).value, ms[1..]);
    }
  }

  // ---- When two of them commit ----

  /** The cancellations that were under way when another one committed, after one more move. */
  function OverlappedAfter(r: Race, overlapped: set<nat>, m: Move): set<nat> {
    if CommitsCancel(r, m) then overlapped + r.cancels - {m.action.id}
    else if m.Stock? && m.action.Abort? then overlapped - {m.action.id}
    else overlapped
  }

  /** A cancellation commits that was already under way when another one committed. */
  predicate OverlapCommits(o: Subject, r: Race, overlapped: set<nat>, ms: seq<Move>)
    decreases |ms|
  {
    ms != [] && Make(o, r, ms[0]).Some?
    && ((CommitsCancel(r, ms[0]) && ms[0].action.id in overlapped)
        || OverlapCommits(o, Make(o, r, ms[0]).value, OverlappedAfter(r, overlapped, ms[0]), ms[1..]))
  }

  /** Once a cancellation has committed the order is settled and no other can start, so those
      still under way are those that overlapped it. */
  predicate OverlapOk(r: Race, overlapped: set<nat>) {
    if r.cancelled then Settled(r.status) && overlapped == r.cancels else overlapped == {}
  }

  lemma MakeOverlaps(o: Subject, r: Race, overlapped: set<nat>, m: Move)
    requires OverlapOk(r, overlapped) && Make(o, r, m).Some?
    ensures OverlapOk(Make(o, r, m).value, OverlappedAfter(r, overlapped, m))
  {
  }

  lemma {:induction false} TwiceMeansOverlap(o: Subject, r: Race, overlapped: set<nat>, ms: seq<Move>)
    requires OverlapOk(r, overlapped)
    ensures CancelsTwice(o, r, ms) <==> OverlapCommits(o, r, overlapped, ms)
    decreases |ms|
  {
    if ms != [] && Make(o, r, ms[0]).Some? {
      MakeOverlaps(o, r, overlapped, ms[0]);
      TwiceMeansOverlap(o, Make(o, r, ms[0]).value, OverlappedAfter(r, overlapped, ms[0]), ms[1..]);
    }
  }

  /** The race over a placed order that nobody is cancelling yet. */
  function Fresh(b: Books, status: Status): Race {
    Race(System(b, map[]), status, false, {})
  }

  /** An order whose movements took its demand ends with a sum of at most 0, as in every serial
      run, exactly when no cancellation commits that was under way when another one committed. */
  lemma RestoresOnceUnlessOverlapped(o: Subject, b: Books, status: Status, ms: seq<Move>, product: nat)
    requires MakeAll(o, Fresh(b, status), ms).Some? && TrackedDemand(o.products, o.lines, product) > 0
    requires Tally(b.movements, ForOrder(o.id, product)) == -TrackedDemand(o.products, o.lines, product)
    ensures Tally(MakeAll(o, Fresh(b, status), ms).value.system.books.movements, ForOrder(o.id, product)) <= 0
       <==> !OverlapCommits(o, Fresh(b, status), {}, ms)
  {
    var demand, n := TrackedDemand(o.products, o.lines, product), Cancellations(o, Fresh(b, status), ms);
    CancellationsAddUp(o, Fresh(b, status), ms, product);
    OnceUnlessTwice(o, Fresh(b, status), ms);
    TwiceMeansOverlap(o, Fresh(b, status), {}, ms);
    Times(n, demand);
  }

  lemma Times(n: nat, demand: int)
    requires demand > 0
    ensures n * demand <= demand <==> n <= 1
  {
    if n > 1 {
      assert n * demand >= 2 * demand;
    }
  }

  /** No cancellation starts while another one is under way. */
  predicate OneAtATime(o: Subject, r: Race, ms: seq<Move>)
    decreases |ms|
  {
    ms == [] || Make(o, r, ms[0]).None?
    || ((ms[0].StartCancel? ==> r.cancels == {}) && OneAtATime(o, Make(o, r, ms[0]).value, ms[1..]))
  }

  lemma {:induction false} AloneNeverOverlaps(o: Subject, r: Race, ms: seq<Move>)
    requires OneAtATime(o, r, ms) && forall a, c :: a in r.cancels && c in r.cancels ==> a == c
    ensures !OverlapCommits(o, r, {}, ms)
    decreases |ms|
  {
    if ms != [] && Make(o, r, ms[0]).Some? {
      assert OverlappedAfter(r, {}, ms[0]) == {};
      AloneNeverOverlaps(o, Make(o, r, ms[0]).value, ms[1..]);
    }
  }

  /** So cancelling one at a time, whatever else interleaves, restores an order at most once. */
  lemma OneAtATimeRestoresOnce(o: Subject, b: Books, status: Status, ms: seq<Move>, product: nat)
    requires MakeAll(o, Fresh(b, status), ms).Some? && TrackedDemand(o.products, o.lines, product) > 0
    requires Tally(b.movements, ForOrder(o.id, product)) == -TrackedDemand(o.products, o.lines, product)
    requires OneAtATime(o, Fresh(b, status), ms)
    ensures Tally(MakeAll(o, Fresh(b, status), ms).value.system.books.movements, ForOrder(o.id, product)) <= 0
  {
    AloneNeverOverlaps(o, Fresh(b, status), ms);
    RestoresOnceUnlessOverlapped(o, b, status, ms, product);
  }

  // ---- Two cancellations of one order ----

  /** An order of two units of a tracked product. */
  const TWO_UNITS := Subject(0, 0, [Product(1, true, false, true, 100)], [OrderLine(0, 2, 100, 0)])

  const RESTORE := RestorePosting(0, 0, OrderLine(0, 2, 100, 0))

  lemma TwoUnitsRestored()
    ensures Restoring(TWO_UNITS) == [RESTORE] && TrackedDemand(TWO_UNITS.products, TWO_UNITS.lines, 0) == 2
  {
    assert TWO_UNITS.lines[1..] == [];
    assert TWO_UNITS.lines == [] + [TWO_UNITS.lines[0]];
    SumPush([], TWO_UNITS.lines[0], QuantityOf(0));
  }

  function Finishing(id: nat): seq<Move> {
    [Stock(Exec(id)), Stock(Exec(id)), Stock(Exec(id)), Stock(Commit(id))]
  }

  /** A started cancellation reads, restores, records and commits. */
  lemma CancelFinishes(r: Race, id: nat, held: nat, rest: seq<Move>)
    requires id in r.cancels && r.system.books.onHand == map[Cell(0, 0) := held]
    requires id in r.system.active && r.system.active[id] == Transaction([RESTORE], Start, map[], [])
    requires forall other :: other in r.system.active ==> r.system.active[other].writes == map[]
    ensures var b := r.system.books;
      var b1 := Books(map[Cell(0, 0) := held + 2], b.movements + [Entry(Cell(0, 0), 2, held, held + 2, true, RESTORE)]);
      MakeAll(TWO_UNITS, r, Finishing(id) + rest)
      == MakeAll(TWO_UNITS, Race(System(b1, r.system.active - {id}), Cancelled, true, r.cancels - {id}), rest)
  {
    var cell, s := Cell(0, 0), r.system;
    var entry := Entry(cell, 2, held, held + 2, true, RESTORE);
    var r1 := r.(system := s.(active := s.active[id := Transaction([RESTORE], HasRead(Some(held)), map[], [])]));
    var written := Transaction([RESTORE], HasWritten(Some(held)), map[cell := held + 2], []);
    var r2 := r.(system := s.(active := s.active[id := written]));
    assert [RESTORE][1..] == [] && [] + [entry] == [entry];
    var r3 := r.(system := s.(active := s.active[id := Transaction([], Start, map[cell := held + 2], [entry])]));
    assert Make(TWO_UNITS, r, Stock(Exec(id))) == Some(r1);
    assert Free(r1.system, id, cell);
    assert Make(TWO_UNITS, r1, Stock(Exec(id))).value.system.active == r2.system.active;
    assert Make(TWO_UNITS, r2, Stock(Exec(id))).value.system.active == r3.system.active;
    assert s.books.onHand + map[cell := held + 2] == map[cell := held + 2];
    assert s.active[id := r3.system.active[id]] - {id} == s.active - {id};
    MakeFour(r, r1, r2, r3, id, rest);
  }

  lemma MakeFour(r: Race, r1: Race, r2: Race, r3: Race, id: nat, rest: seq<Move>)
    requires Make(TWO_UNITS, r, Stock(Exec(id))) == Some(r1) && Make(TWO_UNITS, r1, Stock(Exec(id))) == Some(r2)
    requires Make(TWO_UNITS, r2, Stock(Exec(id))) == Some(r3) && Make(TWO_UNITS, r3, Stock(Commit(id))).Some?
    ensures MakeAll(TWO_UNITS, r, Finishing(id) + rest)
        == MakeAll(TWO_UNITS, Make(TWO_UNITS, r3, Stock(Commit(id))).value, rest)
  {
    var e := Stock(Exec(id));
    assert Finishing(id) + rest == [e] + ([e] + ([e] + ([Stock(Commit(id))] + rest)));
    MakeOne(r, e, [e] + ([e] + ([Stock(Commit(id))] + rest)));
    MakeOne(r1, e, [e] + ([Stock(Commit(id))] + rest));
    MakeOne(r2, e, [Stock(Commit(id))] + rest);
    MakeOne(r3, Stock(Commit(id)), rest);
  }

  lemma MakeOne(r: Race, m: Move, rest: seq<Move>)
    requires Make(TWO_UNITS, r, m).Some?
    ensures MakeAll(TWO_UNITS, r, [m] + rest) == MakeAll(TWO_UNITS, Make(TWO_UNITS, r, m).value, rest)
  {
    assert ([m] + rest)[1..] == rest;
  }

  /** Both transactions after they have read the status. */
  function BothStarted(b: Books): Race {
    var tx := Transaction([RESTORE], Start, map[], []);
    Race(System(b, map[0 := tx, 1 := tx]), Pending, false, {0, 1})
  }

  lemma BothStart(b: Books, rest: seq<Move>)
    ensures MakeAll(TWO_UNITS, Fresh(b, Pending), [StartCancel(0)] + ([StartCancel(1)] + rest))
        == MakeAll(TWO_UNITS, BothStarted(b), rest)
  {
    TwoUnitsRestored();
    var tx := Transaction([RESTORE], Start, map[], []);
    var first := Race(System(b, map[0 := tx]), Pending, false, {0});
    assert forall p :: p in [RESTORE] ==> Interleaved(p);
    assert Act(System(b, map[]), Begin(0, [RESTORE])) == Some(first.system);
    assert map[0 := tx][1 := tx] == map[0 := tx, 1 := tx];
    assert Act(first.system, Begin(1, [RESTORE])) == Some(BothStarted(b).system);
    assert Fresh(b, Pending).cancels + {0} == {0} && first.cancels + {1} == {0, 1};
    assert Make(TWO_UNITS, Fresh(b, Pending), StartCancel(0)) == Some(first);
    assert Make(TWO_UNITS, first, StartCancel(1)) == Some(BothStarted(b));
    MakeOne(Fresh(b, Pending), StartCancel(0), [StartCancel(1)] + rest);
    MakeOne(first, StartCancel(1), rest);
  }

  /** Five units in stock, two of them sold. */
  function Sold(): Db {
    Run(Opening([1], TWO_UNITS.products), [Adjust(0, 0, 5, None), PlaceOrder(TWO_ORDERED)])
  }

  const TWO_ORDERED := OrderRequest(1, 0, None, TWO_UNITS.lines, 0, false)

  const FIVE_IN := AdjustPosting(0, 0, 5, None)

  const TWO_OUT := SalePosting(0, 0, TWO_UNITS.lines[0])

  lemma FiveComeIn()
    ensures var db := Opening([1], TWO_UNITS.products);
      Next(db, Adjust(0, 0, 5, None)) == db.(books := Entered(db.books, FIVE_IN))
  {
    AdjustmentEnters(Opening([1], TWO_UNITS.products), 0, 0, 5, None);
  }

  lemma TwoGoOut(db: Db)
    requires db.branches == [1] && db.products == TWO_UNITS.products && db.orders == []
    requires db.books.onHand == map[Cell(0, 0) := 5]
    ensures Next(db, PlaceOrder(TWO_ORDERED)).books == Entered(db.books, TWO_OUT)
  {
    assert TWO_ORDERED.lines[1..] == [];
  }

  lemma SoldLeavesThree()
    ensures Sold().books.onHand == map[Cell(0, 0) := 3] && Tally(Sold().books.movements, ForOrder(0, 0)) == -2
  {
    var db := Opening([1], TWO_UNITS.products);
    var b1 := Entered(db.books, FIVE_IN);
    FiveComeIn();
    TwoGoOut(db.(books := b1));
    RunTwo(db, Adjust(0, 0, 5, None), PlaceOrder(TWO_ORDERED));
    FiveLessTwo();
  }

  lemma FiveLessTwo()
    ensures var b := Entered(Entered(Books(map[], []), FIVE_IN), TWO_OUT);
      b.onHand == map[Cell(0, 0) := 3] && Tally(b.movements, ForOrder(0, 0)) == -2
  {
    var b1 := Entered(Books(map[], []), FIVE_IN);
    assert b1.movements == [] + [b1.movements[0]];
    SumPush([], b1.movements[0], OnPosting(ForOrder(0, 0)));
    SumPush(b1.movements, Entered(b1, TWO_OUT).movements[1], OnPosting(ForOrder(0, 0)));
  }

  lemma RunTwo(db: Db, first: Step, second: Step)
    ensures Run(db, [first, second]) == Next(Next(db, first), second)
  {
    assert [first, second][1..] == [second] && [second][1..] == [];
    assert Run(Next(db, first), [second]) == Next(Next(db, first), second);
  }

  /** With 3 units left after the sale of 2, two cancellations that both read `pending` leave 7
      on hand, and the order's movements sum to plus what it had taken. */
  lemma BothCancel()
    ensures var r := MakeAll(TWO_UNITS, Fresh(Sold().books, Pending),
                             [StartCancel(0)] + ([StartCancel(1)] + (Finishing(0) + Finishing(1))));
      && r.Some? && At(r.value.system.books.onHand, Cell(0, 0)) == 7
      && Tally(r.value.system.books.movements, ForOrder(0, 0)) == 2
  {
    var b := Sold().books;
    SoldLeavesThree();
    BothStart(b, Finishing(0) + Finishing(1));
    BothFinish(b);
    var m0, m1 := Entry(Cell(0, 0), 2, 3, 5, true, RESTORE), Entry(Cell(0, 0), 2, 5, 7, true, RESTORE);
    SumPush(b.movements, m0, OnPosting(ForOrder(0, 0)));
    SumPush(b.movements + [m0], m1, OnPosting(ForOrder(0, 0)));
  }

  lemma BothFinish(b: Books)
    requires b.onHand == map[Cell(0, 0) := 3]
    ensures var ms := b.movements + [Entry(Cell(0, 0), 2, 3, 5, true, RESTORE)]
        + [Entry(Cell(0, 0), 2, 5, 7, true, RESTORE)];
      MakeAll(TWO_UNITS, BothStarted(b), Finishing(0) + Finishing(1))
      == Some(Race(System(Books(map[Cell(0, 0) := 7], ms), map[]), Cancelled, true, {}))
  {
    var tx := Transaction([RESTORE], Start, map[], []);
    var second := Race(System(Books(map[Cell(0, 0) := 5], b.movements + [Entry(Cell(0, 0), 2, 3, 5, true, RESTORE)]),
        map[1 := tx]),
                       Cancelled, true, {1});
    CancelFinishes(BothStarted(b), 0, 3, Finishing(1));
    assert BothStarted(b).system.active - {0} == second.system.active && BothStarted(b).cancels - {0} == second.cancels;
    SecondFinishes(second, tx);
  }

  lemma SecondFinishes(r: Race, tx: Transaction)
    requires r.system.books.onHand == map[Cell(0, 0) := 5] && tx == Transaction([RESTORE], Start, map[], [])
    requires r.system.active == map[1 := tx] && r.cancels == {1}
    ensures var ms := r.system.books.movements + [Entry(Cell(0, 0), 2, 5, 7, true, RESTORE)];
      MakeAll(TWO_UNITS, r, Finishing(1))
          == Some(Race(System(Books(map[Cell(0, 0) := 7], ms), map[]), Cancelled, true, {}))
  {
    assert Finishing(1) + [] == Finishing(1);
    CancelFinishes(r, 1, 5, []);
    assert r.system.active - {1} == map[] && r.cancels - {1} == {};
  }
}
