/** Returns and transfer receipts beside the locking services.  They load a row, add to it in
    memory and write the result back, so what others commit to the row meanwhile is lost. */
module AbsoluteWrites {
  import opened Basics
  import opened Sums
  import opened RunningLedger
  import opened StockBooks
  import opened RowLocks
  import opened RowLockTheorems

  /** A return or receipt under way: the rows it has loaded, None where there was none, and the
      movements it has recorded. */
  datatype Visit = Visit(rows: map<Cell, Option<int>>, pending: seq<Movement>)

  datatype Shop = Shop(system: System, visits: map<nat, Visit>)

  datatype Move =
    | Stock(action: Action) | Enter(id: nat) | Restock(id: nat, p: Posting) | Leave(id: nat) | GiveUp(id: nat)

  function Row(b: Books, cell: Cell): Option<int> {
    if cell in b.onHand then Some(b.onHand[cell]) else None
  }

  function Loaded(v: Visit, cell: Cell): int {
    if cell in v.rows && v.rows[cell].Some? then v.rows[cell].value else 0
  }

  /** A row that was missing is added once; adding it again cannot be flushed. */
  predicate CanRestock(v: Visit, p: Posting) {
    p.change > 0 && (p.kind.Return? || p.kind.TransferIn?) && (p.cell in v.rows ==> v.rows[p.cell].Some?)
  }

  /** A row is loaded once; its first value stays in the session. */
  function Restocked(b: Books, v: Visit, p: Posting): Visit {
    var rows := if p.cell in v.rows then v.rows else v.rows[p.cell := Row(b, p.cell)];
    var before := Loaded(Visit(rows, []), p.cell) + Balance(v.pending, p.cell);
    Visit(rows, v.pending + [Entry(p.cell, p.change, before, before + p.change, true, p)])
  }

  function Keys(ms: seq<Movement>): set<Cell> {
    set m | m in ms :: m.key
  }

  /** The writes at commit wait for the rows' locks, and the UNIQUE constraint refuses a row
      that somebody else has added. */
  predicate CanLeave(s: System, v: Visit) {
    forall c :: c in Keys(v.pending) ==>
      && (forall id :: id in s.active.Keys ==> c !in s.active[id].writes)
      && (c in v.rows && v.rows[c].None? ==> c !in s.books.onHand)
  }

  function Left(b: Books, v: Visit): Books {
    Books(b.onHand + (map c | c in Keys(v.pending) :: Loaded(v, c) + Balance(v.pending, c)), b.movements + v.pending)
  }

  /** One move; None when it is not enabled. */
  function Make(s: Shop, m: Move): Option<Shop> {
    match m
    case Stock(a) =>
      var system := Act(s.system, a);
      if system.Some? then Some(s.(system := system.value)) else None
    case Enter(id) =>
      if id in s.visits then None else Some(s.(visits := s.visits[id := Visit(map[], [])]))
    case Restock(id, p) =>
      if id in s.visits && CanRestock(s.visits[id], p)
      then Some(s.(visits := s.visits[id := Restocked(s.system.books, s.visits[id], p)])) else None
    case Leave(id) =>
      if id in s.visits && CanLeave(s.system, s.visits[id])
      then Some(Shop(s.system.(books := Left(s.system.books, s.visits[id])), s.visits - {id})) else None
    case GiveUp(id) =>
      if id in s.visits then Some(s.(visits := s.visits - {id})) else None
  }

  function MakeAll(s: Shop, ms: seq<Move>): Option<Shop>
    decreases |ms|
  {
    if ms == [] then Some(s)
    else
      var s1 := Make(s, ms[0]);
      if s1.Some? then MakeAll(s1.value, ms[1..]) else None
  }

  // ---- What is lost ----

  /** By how much a visit's write misses the row it overwrites. */
  function Missed(s: Shop, m: Move, cell: Cell): int {
    if m.Leave? && m.id in s.visits && cell in Keys(s.visits[m.id].pending)
    then Loaded(s.visits[m.id], cell) - At(s.system.books.onHand, cell) else 0
  }

  function MissedAll(s: Shop, ms: seq<Move>, cell: Cell): int
    decreases |ms|
  {
    if ms == [] || Make(s, ms[0]).None? then 0
    else Missed(s, ms[0], cell) + MissedAll(Make(s, ms[0]).value, ms[1..], cell)
  }

  ghost predicate VisitOk(v: Visit) {
    && (forall c :: c in v.rows && v.rows[c].Some? ==> v.rows[c].value >= 0)
    && (forall m :: m in v.pending ==> m.counts && m.change > 0)
  }

  ghost predicate ShopOk(s: Shop) {
    && LocksHeld(s.system) && Stocked(s.system.books)
    && forall id :: id in s.visits ==> VisitOk(s.visits[id])
  }

  lemma PendingIsPositive(v: Visit, cell: Cell)
    requires VisitOk(v)
    ensures Balance(v.pending, cell) >= 0
    ensures cell !in Keys(v.pending) ==> Balance(v.pending, cell) == 0
  {
    forall k | 0 <= k < |v.pending| ensures ChangeOf(cell)(v.pending[k]) >= 0 {
      assert v.pending[k] in v.pending;
    }
    SumNonNegative(v.pending, ChangeOf(cell));
    if cell !in Keys(v.pending) {
      forall k | 0 <= k < |v.pending| ensures ChangeOf(cell)(v.pending[k]) == 0 {
        assert v.pending[k] in v.pending;
      }
      SumZero(v.pending, ChangeOf(cell));
    }
  }

  lemma LeavesGap(b: Books, v: Visit, cell: Cell)
    requires VisitOk(v)
    ensures Gap(Left(b, v), cell)
         == Gap(b, cell) + if cell in Keys(v.pending) then Loaded(v, cell) - At(b.onHand, cell) else 0
  {
    PendingIsPositive(v, cell);
    SumConcat(b.movements, v.pending, ChangeOf(cell));
  }

  lemma LeavesStocked(b: Books, v: Visit)
    requires VisitOk(v) && Stocked(b)
    ensures Stocked(Left(b, v))
  {
    forall c | c in Left(b, v).onHand ensures Left(b, v).onHand[c] >= 0 {
      PendingIsPositive(v, c);
    }
  }

  lemma LeavesLocks(s: System, v: Visit)
    requires LocksHeld(s) && CanLeave(s, v)
    ensures LocksHeld(s.(books := Left(s.books, v)))
  {
    var b1 := Left(s.books, v);
    forall id | id in s.active ensures TransactionOk(b1, s.active[id]) {
      forall cell ensures WritesAccounted(b1, s.active[id], cell) {
        assert WritesAccounted(s.books, s.active[id], cell);
      }
    }
  }

  lemma StaysStocked(s: System, a: Action)
    requires LocksHeld(s) && Stocked(s.books) && Act(s, a).Some?
    ensures Stocked(Act(s, a).value.books)
  {
  }

  lemma RestockOk(b: Books, v: Visit, p: Posting)
    requires VisitOk(v) && Stocked(b) && CanRestock(v, p)
    ensures VisitOk(Restocked(b, v, p))
  {
  }

  lemma MakeKeeps(s: Shop, m: Move)
    requires ShopOk(s) && Make(s, m).Some?
    ensures ShopOk(Make(s, m).value)
  {
    match m {
      case Stock(a) =>
        ActHolds(s.system, a);
        StaysStocked(s.system, a);
      case Restock(id, p) => RestockOk(s.system.books, s.visits[id], p);
      case Leave(id) =>
        LeavesStocked(s.system.books, s.visits[id]);
        LeavesLocks(s.system, s.visits[id]);
      case _ =>
    }
  }

  lemma MakeMisses(s: Shop, m: Move, cell: Cell)
    requires ShopOk(s) && Make(s, m).Some?
    ensures Gap(Make(s, m).value.system.books, cell) == Gap(s.system.books, cell) + Missed(s, m, cell)
  {
    if m.Stock? {
      ActHolds(s.system, m.action);
    } else if m.Leave? {
      LeavesGap(s.system.books, s.visits[m.id], cell);
    }
  }

  /** Whatever interleaves, a balance never turns negative, and it departs from the sum of its
      movements by exactly what the absolute writes missed. */
  lemma {:induction false} BalancesDepartByWhatWasMissed(s: Shop, ms: seq<Move>, cell: Cell)
    requires ShopOk(s) && MakeAll(s, ms).Some?
    ensures var b1 := MakeAll(s, ms).value.system.books;
      At(b1.onHand, cell) >= 0 && Gap(b1, cell) == Gap(s.system.books, cell) + MissedAll(s, ms, cell)
    decreases |ms|
  {
    if ms != [] {
      MakeKeeps(s, ms[0]);
      MakeMisses(s, ms[0], cell);
      BalancesDepartByWhatWasMissed(Make(s, ms[0]).value, ms[1..], cell);
    }
  }

  /** So from sound books every committed balance is the sum of its movements, as it is without
      returns and receipts, exactly when what they missed of the row cancels out. */
  lemma AgreesExactlyWhenNothingIsMissed(b: Books, ms: seq<Move>, cell: Cell)
    requires Sound(b) && MakeAll(Shop(System(b, map[]), map[]), ms).Some?
    ensures var b1 := MakeAll(Shop(System(b, map[]), map[]), ms).value.system.books;
      At(b1.onHand, cell) == Balance(b1.movements, cell) <==> MissedAll(Shop(System(b, map[]), map[]), ms, cell) == 0
  {
    BalancesDepartByWhatWasMissed(Shop(System(b, map[]), map[]), ms, cell);
  }

  /** Every write back finds the rows as they were loaded. */
  predicate NothingOvertaken(s: Shop, ms: seq<Move>)
    decreases |ms|
  {
    ms == [] || Make(s, ms[0]).None?
    || ((ms[0].Leave? && ms[0].id in s.visits ==>
           forall c :: c in Keys(s.visits[ms[0].id].pending) ==>
             Loaded(s.visits[ms[0].id], c) == At(s.system.books.onHand, c))
        && NothingOvertaken(Make(s, ms[0]).value, ms[1..]))
  }

  lemma {:induction false} NothingMissed(s: Shop, ms: seq<Move>, cell: Cell)
    requires NothingOvertaken(s, ms)
    ensures MissedAll(s, ms, cell) == 0
    decreases |ms|
  {
    if ms != [] && Make(s, ms[0]).Some? {
      NothingMissed(Make(s, ms[0]).value, ms[1..], cell);
    }
  }

  // ---- A return that overwrites a sale ----

  function Stocks(actions: seq<Action>): seq<Move> {
    seq(|actions|, i requires 0 <= i < |actions| => Stock(actions[i]))
  }

  lemma {:induction false} StocksPlay(s: Shop, actions: seq<Action>, rest: seq<Move>)
    requires Play(s.system, actions).Some?
    ensures MakeAll(s, Stocks(actions) + rest) == MakeAll(s.(system := Play(s.system, actions).value), rest)
    decreases |actions|
  {
    if actions == [] {
      assert Stocks(actions) + rest == rest;
    } else {
      assert (Stocks(actions) + rest)[1..] == Stocks(actions[1..]) + rest;
      StocksPlay(s.(system := Act(s.system, actions[0]).value), actions[1..], rest);
    }
  }

  lemma MakeOne(s: Shop, m: Move, rest: seq<Move>)
    requires Make(s, m).Some?
    ensures MakeAll(s, [m] + rest) == MakeAll(Make(s, m).value, rest)
  {
    assert ([m] + rest)[1..] == rest;
  }

  const SHELF := Cell(0, 0)
  const FIVE := Posting(Adjustment, SHELF, 5, AdjustmentRef, None)
  const SALE := Posting(Sale, SHELF, -3, OrderRef(0), None)
  const RETURNED := Posting(Return, SHELF, 2, ReturnRef(0), None)

  /** A return of 2 loads the balance 5, a sale of 3 commits, the return writes 7: the movements
      sum to 4. */
  lemma ReturnOverwritesSale()
    ensures var b := Entered(Books(map[], []), FIVE);
      var ms := [Enter(0)] + ([Restock(0, RETURNED)] + (Stocks(Solo(0, [SALE])) + [Leave(0)]));
      var r := MakeAll(Shop(System(b, map[]), map[]), ms);
      && Sound(b) && r.Some? && At(r.value.system.books.onHand, SHELF) == 7
      && Balance(r.value.system.books.movements, SHELF) == 4
  {
    var b := Entered(Books(map[], []), FIVE);
    EnteredSound(Books(map[], []), FIVE);
    var s := Shop(System(b, map[]), map[]);
    var entry := Entry(SHELF, 2, 5, 7, true, RETURNED);
    var visit := Visit(map[SHELF := Some(5)], [entry]);
    var entered := s.(visits := map[0 := Visit(map[], [])]);
    var loaded := s.(visits := map[0 := visit]);
    var tail := Stocks(Solo(0, [SALE])) + [Leave(0)];
    assert map[0 := Visit(map[], [])][0 := visit] == loaded.visits && [] + [entry] == [entry];
    assert Make(s, Enter(0)) == Some(entered);
    assert Make(entered, Restock(0, RETURNED)) == Some(loaded);
    MakeOne(s, Enter(0), [Restock(0, RETURNED)] + tail);
    MakeOne(entered, Restock(0, RETURNED), tail);
    SaleCommits(b);
    var sold := loaded.(system := System(Entered(b, SALE), map[]));
    StocksPlay(loaded, Solo(0, [SALE]), [Leave(0)]);
    TwoLeft();
    ReturnWritesBack(sold, entry);
  }

  lemma SaleCommits(b: Books)
    requires b == Entered(Books(map[], []), FIVE)
    ensures Play(System(b, map[]), Solo(0, [SALE])) == Some(System(Entered(b, SALE), map[]))
  {
    assert [SALE][1..] == [];
    SoloIsSerial(b, 0, [SALE]);
  }

  lemma TwoLeft()
    ensures var b := Entered(Entered(Books(map[], []), FIVE), SALE);
      Balance(b.movements, SHELF) == 2
  {
    var b := Entered(Books(map[], []), FIVE);
    BalancePush([], b.movements[0], SHELF);
    assert b.movements == [] + [b.movements[0]];
    BalancePush(b.movements, Entered(b, SALE).movements[1], SHELF);
  }

  lemma ReturnWritesBack(s: Shop, entry: Movement)
    requires entry == Entry(SHELF, 2, 5, 7, true, RETURNED)
    requires s.system.active == map[] && s.visits == map[0 := Visit(map[SHELF := Some(5)], [entry])]
    ensures var r := MakeAll(s, [Leave(0)]);
      && r.Some? && At(r.value.system.books.onHand, SHELF) == 7
      && Balance(r.value.system.books.movements, SHELF) == Balance(s.system.books.movements, SHELF) + 2
  {
    assert [Leave(0)][1..] == [];
    BalancePush([], entry, SHELF);
    assert [] + [entry] == [entry] && entry in [entry];
    BalancePush(s.system.books.movements, entry, SHELF);
  }
}
