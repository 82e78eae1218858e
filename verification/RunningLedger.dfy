/** An append-only ledger whose entries record the balance before and after each change.
    Stock movements (per branch and product) and loyalty transactions (per customer) are
    both ledgers of this kind. */
module RunningLedger {
  import opened Sums

  /** `counts` is false for a memo entry that leaves the balance alone. */
  datatype Entry<K, I> = Entry(key: K, change: int, before: int, after: int, counts: bool, info: I)

  function ChangeOf<K(==), I>(k: K): Entry<K, I> -> int {
    (e: Entry<K, I>) => if e.counts && e.key == k then e.change else 0
  }

  /** The balance the ledger alone accounts for. */
  function Balance<K(==), I>(es: seq<Entry<K, I>>, k: K): int {
    Sum(es, ChangeOf(k))
  }

  /** The `after` of the latest entry for `k`; 0 when there is none. */
  function LastAfter<K(==), I>(es: seq<Entry<K, I>>, k: K): int {
    if es == [] then 0
    else
      var e := es[|es| - 1];
      if e.counts && e.key == k then e.after else LastAfter(es[..|es| - 1], k)
  }

  /** Every entry starts where the previous entry of its key stopped. */
  ghost predicate Chained<K, I>(es: seq<Entry<K, I>>) {
    forall i :: 0 <= i < |es| && es[i].counts ==>
      && es[i].before == LastAfter(es[..i], es[i].key)
      && es[i].after == es[i].before + es[i].change
  }

  ghost predicate NonNegative<K, I>(es: seq<Entry<K, I>>) {
    forall i :: 0 <= i < |es| ==> es[i].before >= 0 && es[i].after >= 0
  }

  lemma ChainedPrefix<K, I>(es: seq<Entry<K, I>>, n: nat)
    requires Chained(es) && n <= |es|
    ensures Chained(es[..n])
  {
    forall i | 0 <= i < n && es[..n][i].counts
      ensures es[..n][i].before == LastAfter(es[..n][..i], es[i].key)
    {
      assert es[..n][..i] == es[..i];
    }
  }

  /** In a chained ledger the latest `after` is the sum of the changes. */
  lemma {:induction false} ChainedBalance<K, I>(es: seq<Entry<K, I>>, k: K)
    requires Chained(es)
    ensures LastAfter(es, k) == Balance(es, k)
  {
    if es != [] {
      var n := |es| - 1;
      ChainedPrefix(es, n);
      ChainedBalance(es[..n], k);
    }
  }

  lemma BalancePush<K, I>(es: seq<Entry<K, I>>, e: Entry<K, I>, k: K)
    ensures Balance(es + [e], k) == Balance(es, k) + (if e.counts && e.key == k then e.change else 0)
  {
    SumPush(es, e, ChangeOf(k));
  }

  /** Appending an entry that starts at its key's balance keeps the chain. */
  lemma ChainedPush<K, I>(es: seq<Entry<K, I>>, e: Entry<K, I>)
    requires Chained(es)
    requires e.counts ==> e.before == Balance(es, e.key) && e.after == e.before + e.change
    ensures Chained(es + [e])
  {
    ChainedBalance(es, e.key);
    var all := es + [e];
    forall i | 0 <= i < |all| && all[i].counts
      ensures all[i].before == LastAfter(all[..i], all[i].key)
      ensures all[i].after == all[i].before + all[i].change
    {
      assert all[..i] == es[..i];
      if i == |es| {
        assert es[..i] == es;
      }
    }
  }

  /** An entry chains exactly when it starts where its key's latest entry stopped. */
  lemma ChainedPushLast<K, I>(es: seq<Entry<K, I>>, e: Entry<K, I>)
    requires e.counts
    ensures Chained(es + [e]) <==> Chained(es) && e.before == LastAfter(es, e.key) && e.after == e.before + e.change
    ensures forall k :: LastAfter(es + [e], k) == if e.key == k then e.after else LastAfter(es, k)
  {
    var all := es + [e];
    assert all[..|es|] == es;
    if Chained(all) {
      ChainedPrefix(all, |es|);
      assert all[|es|].before == LastAfter(all[..|es|], e.key);
    }
    if Chained(es) && e.before == LastAfter(es, e.key) && e.after == e.before + e.change {
      ChainedBalance(es, e.key);
      ChainedPush(es, e);
    }
  }

  lemma {:induction false} LastAfterUnknown<K, I>(es: seq<Entry<K, I>>, k: K)
    requires forall e :: e in es ==> e.key != k
    ensures LastAfter(es, k) == 0
  {
    if es != [] {
      LastAfterUnknown(es[..|es| - 1], k);
    }
  }
}
