/** The username given to a new Google account: the first free candidate of a fixed series. */
module Usernames {
  import opened Basics
  import opened Decimal

  /** The part of the address before the at sign, cut to 80 characters; never empty. */
  function Base(local: string): (base: string)
    ensures 0 < |base| <= 80
  {
    if local == "" then "google-user" else if |local| > 80 then local[..80] else local
  }

  /** `s[:end]`, where a negative end counts from the right. */
  function Slice(s: string, end: int): (r: string)
    ensures |r| == if end >= |s| then |s| else if end >= 0 then end else if |s| + end > 0 then |s| + end else 0
  {
    if end >= |s| then s else if end >= 0 then s[..end] else if |s| + end > 0 then s[..|s| + end] else ""
  }

  /** The name tried with suffix `k`; the first one has no suffix. */
  function Candidate(base: string, k: nat): string
    requires k > 0
  {
    if k == 1 then base else Slice(base, 100 - |Digits(k)| - 1) + "-" + Digits(k)
  }

  /** No name is tried twice. */
  lemma CandidatesDiffer(base: string, j: nat, k: nat)
    requires |base| <= 80 && 0 < j < k
    ensures Candidate(base, j) != Candidate(base, k)
  {
    var prefix := Slice(base, 100 - |Digits(k)| - 1);
    if j == 1 {
      assert |Candidate(base, k)| == |prefix| + 1 + |Digits(k)|;
    } else if Candidate(base, j) == Candidate(base, k) {
      SplitAtDash(Slice(base, 100 - |Digits(j)| - 1), Digits(j), prefix, Digits(k));
      ValueOfDigits(j);
      ValueOfDigits(k);
    }
  }

  /** A candidate fits the 100-character column exactly while its suffix has at most 99 digits. */
  lemma CandidateFits(base: string, k: nat)
    requires |base| <= 80 && k > 0
    ensures |Candidate(base, k)| <= 100 <==> |Digits(k)| <= 99
  {
    if k == 1 {
      assert Digits(1) == [Digit(1)];
    }
  }

  lemma EarlyCandidatesFit(base: string, k: nat, bound: nat)
    requires |base| <= 80 && 0 < k <= bound && |Digits(bound)| <= 99
    ensures |Candidate(base, k)| <= 100
  {
    LongerWhenLarger(k, bound);
    CandidateFits(base, k);
  }

  /** The first `n` candidates. */
  ghost function Tried(base: string, n: nat): set<string> {
    if n == 0 then {} else Tried(base, n - 1) + {Candidate(base, n)}
  }

  lemma {:induction false} TriedCount(base: string, n: nat)
    requires |base| <= 80
    ensures |Tried(base, n)| == n
    ensures forall name :: name in Tried(base, n) ==> exists k :: 0 < k <= n && Candidate(base, k) == name
  {
    if n > 0 {
      TriedCount(base, n - 1);
      forall k | 0 < k <= n - 1 ensures Candidate(base, k) != Candidate(base, n) {
        CandidatesDiffer(base, k, n);
      }
    }
  }

  lemma {:induction false} Subset<T>(a: set<T>, b: set<T>)
    requires a <= b
    ensures |a| <= |b|
  {
    if a != {} {
      var x :| x in a;
      Subset(a - {x}, b - {x});
    }
  }

  /** Candidates that are all taken are no more than the names there are. */
  lemma TakenAreFew(base: string, n: nat, existing: set<string>)
    requires |base| <= 80 && forall k :: 0 < k <= n ==> Candidate(base, k) in existing
    ensures n <= |existing|
  {
    TriedCount(base, n);
    Subset(Tried(base, n), existing);
  }

  /** The first free candidate, found after at most one probe more than there are names; it
      fits the column unless there are about as many names as 99 digits can count. */
  method Allocate(local: string, existing: set<string>) returns (username: string, probes: nat)
    ensures username !in existing
    ensures 0 < probes <= |existing| + 1
    ensures username == Candidate(Base(local), probes)
    ensures forall k :: 0 < k < probes ==> Candidate(Base(local), k) in existing
    ensures |Digits(|existing| + 1)| <= 99 ==> |username| <= 100
  {
    var base := Base(local);
    username := base;
    var suffix := 1;
    while username in existing
      invariant suffix > 0 && username == Candidate(base, suffix)
      invariant forall k :: 0 < k < suffix ==> Candidate(base, k) in existing
      decreases |existing| - suffix
    {
      TakenAreFew(base, suffix, existing);
      suffix := suffix + 1;
      username := Slice(base, 100 - |Digits(suffix)| - 1) + "-" + Digits(suffix);
    }
    TakenAreFew(base, suffix - 1, existing);
    if |Digits(|existing| + 1)| <= 99 {
      EarlyCandidatesFit(base, suffix, |existing| + 1);
    }
    return username, suffix;
  }

  /** The first candidate that no live user has belongs to a deleted one. */
  ghost predicate FirstFreeIsDeleted(base: string, live: set<string>, deleted: set<string>) {
    exists k :: 0 < k && Candidate(base, k) in deleted - live && forall j :: 0 < j < k ==> Candidate(base, j) in live
  }

  /** With a live `ann` and a deleted `ann-2`, the address ann@... cannot be given an account. */
  lemma DeletedNameBlocks()
    ensures FirstFreeIsDeleted(Base("ann"), {"ann"}, {"ann-2"})
  {
    assert Digits(2) == "2";
    assert Candidate("ann", 2) == "ann-2" && Candidate("ann", 1) == "ann";
  }

  /** The insert that follows: the search passes over deleted users, the UNIQUE constraint does
      not.  So the account is created exactly unless the first free candidate is a deleted
      user's name, and the next candidate is then not tried. */
  method CreateUser(local: string, live: set<string>, deleted: set<string>) returns (r: Result<string>)
    ensures r.Err? <==> FirstFreeIsDeleted(Base(local), live, deleted)
    ensures r.Ok? ==> r.value !in live + deleted
    ensures r.Err? ==> r.error == Integrity
  {
    var username, probes := Allocate(local, live);
    if username in deleted {
      assert Candidate(Base(local), probes) in deleted - live;
      return Err(Integrity);
    }
    forall k | 0 < k && Candidate(Base(local), k) in deleted - live
      ensures !(forall j :: 0 < j < k ==> Candidate(Base(local), j) in live)
    {
      assert k > probes;
    }
    return Ok(username);
  }

  /** A short name is kept as it is, a long one keeps its first 80 characters. */
  lemma BaseKeepsTheName(local: string)
    requires local != ""
    ensures Base(local) <= local && (|local| <= 80 ==> Base(local) == local) && (|local| > 80 ==> |Base(local)| == 80)
  {
  }
}
