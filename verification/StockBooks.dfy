/** The `inventory` balance table together with the `stock_movements` ledger, and the one
    way services change them: a posting updates the balance row and appends its movement. */
module StockBooks {
  import opened Basics
  import opened Sums
  import opened RunningLedger

  /** The key of an inventory row. */
  datatype Cell = Cell(branch: nat, product: nat)

  datatype LotKey = LotKey(cell: Cell, number: string)

  datatype Kind = Sale | Adjustment | Purchase | Return | TransferOut | TransferIn | Damage

  datatype Reference =
    | OrderRef(id: nat) | AdjustmentRef | ReceivingRef(id: nat) | ReturnRef(id: nat) | TransferRef(id: nat)

  datatype Posting =
    Posting(kind: Kind, cell: Cell, change: int, reference: Reference, lot: Option<LotKey>)

  type Movement = Entry<Cell, Posting>

  datatype Books = Books(onHand: map<Cell, int>, movements: seq<Movement>)

  /** A damage movement is a memo: it leaves `on_hand` alone. */
  function Entered(b: Books, p: Posting): Books {
    var before := At(b.onHand, p.cell);
    Books(
      if p.kind.Damage? then b.onHand else b.onHand[p.cell := before + p.change],
      b.movements + [Entry(p.cell, p.change, before, before + p.change, !p.kind.Damage?, p)])
  }

  /** The CHECK constraints on the movement and, unless it is a memo, on the new balance. */
  predicate Legal(b: Books, p: Posting) {
    p.change != 0 && At(b.onHand, p.cell) + p.change >= 0
  }

  function EnteredAll(b: Books, ps: seq<Posting>): Books
    decreases |ps|
  {
    if ps == [] then b else EnteredAll(Entered(b, ps[0]), ps[1..])
  }

  predicate LegalAll(b: Books, ps: seq<Posting>)
    decreases |ps|
  {
    ps == [] || (Legal(b, ps[0]) && LegalAll(Entered(b, ps[0]), ps[1..]))
  }

  lemma {:induction false} EnteredConcat(b: Books, ps: seq<Posting>, qs: seq<Posting>)
    ensures EnteredAll(b, ps + qs) == EnteredAll(EnteredAll(b, ps), qs)
    ensures LegalAll(b, ps) && LegalAll(EnteredAll(b, ps), qs) ==> LegalAll(b, ps + qs)
    decreases |ps|
  {
    if ps == [] {
      assert ps + qs == qs;
    } else {
      assert (ps + qs)[1..] == ps[1..] + qs;
      EnteredConcat(Entered(b, ps[0]), ps[1..], qs);
    }
  }

  // ---- What the movements add up to ----

  function OnPosting(weight: Posting -> int): Movement -> int {
    (m: Movement) => weight(m.info)
  }

  /** A weighted sum over the movements recorded so far. */
  function Tally(ms: seq<Movement>, weight: Posting -> int): int {
    Sum(ms, OnPosting(weight))
  }

  lemma {:induction false} TallyEntered(b: Books, ps: seq<Posting>, weight: Posting -> int)
    ensures Tally(EnteredAll(b, ps).movements, weight) == Tally(b.movements, weight) + Sum(ps, weight)
    decreases |ps|
  {
    if ps != [] {
      var b1 := Entered(b, ps[0]);
      TallyEntered(b1, ps[1..], weight);
      SumPush(b.movements, b1.movements[|b.movements|], OnPosting(weight));
      SumFirst(ps, weight);
    }
  }

  /** Every change of a product's stock, at any branch, leaving out memos. */
  function StockOf(product: nat): Posting -> int {
    (p: Posting) => if p.cell.product == product && !p.kind.Damage? then p.change else 0
  }

  /** The part of it that transfers move between branches. */
  function TransferOf(product: nat): Posting -> int {
    (p: Posting) =>
      if p.cell.product == product && (p.kind.TransferIn? || p.kind.TransferOut?) then p.change else 0
  }

  /** The part of it that enters or leaves the organisation. */
  function ExternalOf(product: nat): Posting -> int {
    (p: Posting) =>
      if p.cell.product == product
         && (p.kind.Sale? || p.kind.Adjustment? || p.kind.Purchase? || p.kind.Return?)
      then p.change else 0
  }

  lemma {:induction false} StockSplits(ms: seq<Movement>, product: nat)
    ensures Tally(ms, StockOf(product)) == Tally(ms, ExternalOf(product)) + Tally(ms, TransferOf(product))
  {
    if ms != [] {
      var front, last := ms[..|ms| - 1], ms[|ms| - 1];
      StockSplits(front, product);
      match last.info.kind
      case Sale => case Adjustment => case Purchase => case Return =>
      case TransferOut => case TransferIn => case Damage =>
    }
  }

  predicate OfProduct(c: Cell, product: nat) {
    c.product == product
  }

  /** Units of a product on hand over all branches. */
  ghost function TotalOnHand(b: Books, product: nat): int {
    Total(b.onHand, c => OfProduct(c, product))
  }

  // ---- Soundness ----

  predicate Stocked(b: Books) {
    forall c :: c in b.onHand ==> b.onHand[c] >= 0
  }

  /** The balance table is what its ledger says, row by row and per product, and the ledger chains. */
  ghost predicate Sound(b: Books) {
    && Stocked(b)
    && (forall c :: At(b.onHand, c) == Balance(b.movements, c))
    && (forall product :: TotalOnHand(b, product) == Tally(b.movements, StockOf(product)))
    && Chained(b.movements)
    && NonNegative(b.movements)
  }

  lemma EnteredSound(b: Books, p: Posting)
    requires Sound(b) && Legal(b, p)
    ensures Sound(Entered(b, p))
  {
    var b1 := Entered(b, p);
    var e := b1.movements[|b.movements|];
    forall c ensures At(b1.onHand, c) == Balance(b1.movements, c) {
      BalancePush(b.movements, e, c);
    }
    assert At(b.onHand, p.cell) == Balance(b.movements, p.cell);
    ChainedPush(b.movements, e);
    forall product ensures TotalOnHand(b1, product) == Tally(b1.movements, StockOf(product)) {
      SumPush(b.movements, e, OnPosting(StockOf(product)));
      TotalUpdate(b.onHand, p.cell, e.after, c => OfProduct(c, product));
      assert TotalOnHand(b, product) == Tally(b.movements, StockOf(product));
    }
  }

  lemma {:induction false} EnteredAllSound(b: Books, ps: seq<Posting>)
    requires Sound(b) && LegalAll(b, ps)
    ensures Sound(EnteredAll(b, ps))
    decreases |ps|
  {
    if ps != [] {
      EnteredSound(b, ps[0]);
      EnteredAllSound(Entered(b, ps[0]), ps[1..]);
    }
  }

  /** What a list of postings does to one row. */
  function ChangeAt(cell: Cell): Posting -> int {
    (p: Posting) => if p.cell == cell && !p.kind.Damage? then p.change else 0
  }

  lemma {:induction false} EnteredOnHand(b: Books, ps: seq<Posting>, cell: Cell)
    ensures At(EnteredAll(b, ps).onHand, cell) == At(b.onHand, cell) + Sum(ps, ChangeAt(cell))
    ensures cell in b.onHand ==> cell in EnteredAll(b, ps).onHand
    decreases |ps|
  {
    if ps != [] {
      EnteredOnHand(Entered(b, ps[0]), ps[1..], cell);
      SumFirst(ps, ChangeAt(cell));
    }
  }

  // ---- Rows credited through the session's identity map ----

  /** A unit of work that finds rows with a SELECT and adds missing ones.  Added rows stay
      unflushed, so a second SELECT misses them and adds a twin that the UNIQUE constraint
      refuses; `broken` records that the flush will be refused. */
  datatype Session = Session(books: Books, created: set<Cell>, broken: bool)

  function Credited(s: Session, p: Posting): Session {
    if p.cell in s.created then s.(broken := true)
    else
      Session(
        Entered(s.books, p),
        if p.cell in s.books.onHand then s.created else s.created + {p.cell},
        s.broken)
  }

  function CreditAll(s: Session, ps: seq<Posting>): Session
    decreases |ps|
  {
    if ps == [] then s else CreditAll(Credited(s, ps[0]), ps[1..])
  }

  lemma {:induction false} CreditAllStaysBroken(s: Session, ps: seq<Posting>)
    requires s.broken
    ensures CreditAll(s, ps).broken
    decreases |ps|
  {
    if ps != [] {
      CreditAllStaysBroken(Credited(s, ps[0]), ps[1..]);
    }
  }

  /** A session that will flush has posted every credit in order. */
  lemma {:induction false} CreditAllPosts(s: Session, ps: seq<Posting>)
    requires Stocked(s.books)
    requires forall p :: p in ps ==> p.change > 0
    requires !CreditAll(s, ps).broken
    ensures LegalAll(s.books, ps) && CreditAll(s, ps).books == EnteredAll(s.books, ps)
    decreases |ps|
  {
    if ps != [] {
      if ps[0].cell in s.created {
        CreditAllStaysBroken(Credited(s, ps[0]), ps[1..]);
      } else {
        CreditAllPosts(Credited(s, ps[0]), ps[1..]);
      }
    }
  }

  predicate CreditsTwin(s: Session, ps: seq<Posting>, i: nat)
    requires i < |ps|
  {
    ps[i].cell in s.created
    || (ps[i].cell !in s.books.onHand && exists k :: 0 <= k < i && ps[k].cell == ps[i].cell)
  }

  /** The flush is refused exactly when a row that was missing is credited a second time. */
  lemma {:induction false} CreditAllBroken(s: Session, ps: seq<Posting>)
    requires s.created <= s.books.onHand.Keys
    requires forall p :: p in ps ==> !p.kind.Damage?
    ensures CreditAll(s, ps).broken <==> s.broken || exists i :: 0 <= i < |ps| && CreditsTwin(s, ps, i)
    decreases |ps|
  {
    if ps == [] {
      return;
    }
    var s1, rest := Credited(s, ps[0]), ps[1..];
    CreditAllBroken(s1, rest);
    if ps[0].cell in s.created {
      assert CreditsTwin(s, ps, 0);
      CreditAllStaysBroken(s1, rest);
    } else {
      forall i | 0 <= i < |rest| ensures CreditsTwin(s1, rest, i) <==> CreditsTwin(s, ps, i + 1) {
        assert rest[i] == ps[i + 1];
        if CreditsTwin(s1, rest, i) {
          if rest[i].cell !in s1.books.onHand {
            var k :| 0 <= k < i && rest[k].cell == rest[i].cell;
            assert ps[k + 1].cell == ps[i + 1].cell;
          } else if rest[i].cell !in s.created {
            assert ps[0].cell == ps[i + 1].cell;
          }
        }
        if CreditsTwin(s, ps, i + 1) && ps[i + 1].cell !in s.created {
          var k :| 0 <= k < i + 1 && ps[k].cell == ps[i + 1].cell;
          if k > 0 {
            assert rest[k - 1].cell == rest[i].cell;
          }
        }
      }
      if exists i :: 0 <= i < |ps| && CreditsTwin(s, ps, i) {
        var i :| 0 <= i < |ps| && CreditsTwin(s, ps, i);
        assert CreditsTwin(s1, rest, i - 1);
      }
      if exists i :: 0 <= i < |rest| && CreditsTwin(s1, rest, i) {
        var i :| 0 <= i < |rest| && CreditsTwin(s1, rest, i);
        assert CreditsTwin(s, ps, i + 1);
      }
    }
  }
}
