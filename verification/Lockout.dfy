/** The account lockout of `login`.  Times are in microseconds; whether a password is right is
    an input. */
module Lockout {
  import opened Basics

  const MAX_FAILED_ATTEMPTS := 5
  const LOCKOUT := 30 * 60 * 1000000

  datatype Account = Account(failed: int, lockedUntil: Option<int>)

  datatype Try = Try(now: int, correct: bool)

  /** `Refused` means the password was not looked at. */
  datatype Outcome = Refused | Wrong | LoggedIn

  function Attempt(a: Account, t: Try): (Account, Outcome) {
    if a.lockedUntil.Some? && a.lockedUntil.value > t.now then (a, Refused)
    else if t.correct then (Account(0, None), LoggedIn)
    else if a.failed + 1 >= MAX_FAILED_ATTEMPTS then (Account(0, Some(t.now + LOCKOUT)), Wrong)
    else (a.(failed := a.failed + 1), Wrong)
  }

  class User {
    var failedLoginAttempts: int
    var lockedUntil: Option<int>

    function State(): Account
      reads this
    {
      Account(failedLoginAttempts, lockedUntil)
    }

    constructor ()
      ensures State() == Account(0, None)
    {
      failedLoginAttempts, lockedUntil := 0, None;
    }

    method Login(now: int, correct: bool) returns (outcome: Outcome)
      modifies this
      ensures (State(), outcome) == Attempt(old(State()), Try(now, correct))
    {
      if lockedUntil.Some? && lockedUntil.value > now {
        return Refused;
      }
      if !correct {
        failedLoginAttempts := failedLoginAttempts + 1;
        if failedLoginAttempts >= MAX_FAILED_ATTEMPTS {
          lockedUntil := Some(now + LOCKOUT);
          failedLoginAttempts := 0;
        }
        return Wrong;
      }
      failedLoginAttempts, lockedUntil := 0, None;
      return LoggedIn;
    }
  }

  // ---- Runs ----

  function After(a: Account, tries: seq<Try>): Account
    decreases |tries|
  {
    if tries == [] then a else After(Attempt(a, tries[0]).0, tries[1..])
  }

  /** The failure count stays between 0 and 4. */
  lemma {:induction false} FailuresStayLow(a: Account, tries: seq<Try>)
    requires 0 <= a.failed < MAX_FAILED_ATTEMPTS
    ensures 0 <= After(a, tries).failed < MAX_FAILED_ATTEMPTS
    decreases |tries|
  {
    if tries != [] {
      FailuresStayLow(Attempt(a, tries[0]).0, tries[1..]);
    }
  }

  predicate InWindow(t: Try, from: int) {
    from <= t.now < from + LOCKOUT
  }

  /** How many tries in the window had this outcome. */
  function Count(a: Account, tries: seq<Try>, from: int, outcome: Outcome): nat
    decreases |tries|
  {
    if tries == [] then 0
    else
      var (b, o) := Attempt(a, tries[0]);
      (if o == outcome && InWindow(tries[0], from) then 1 else 0) + Count(b, tries[1..], from, outcome)
  }

  ghost predicate InOrder(tries: seq<Try>) {
    forall i, k :: 0 <= i < k < |tries| ==> tries[i].now <= tries[k].now
  }

  lemma {:induction false} NothingAfterTheWindow(a: Account, tries: seq<Try>, from: int, outcome: Outcome)
    requires forall t :: t in tries ==> t.now >= from + LOCKOUT
    ensures Count(a, tries, from, outcome) == 0
    decreases |tries|
  {
    if tries != [] {
      assert tries[0] in tries;
      NothingAfterTheWindow(Attempt(a, tries[0]).0, tries[1..], from, outcome);
    }
  }

  /** A lock that outlasts the window leaves no password to check in it. */
  lemma {:induction false} LockedThroughTheWindow(a: Account, tries: seq<Try>, from: int)
    requires a.lockedUntil.Some? && a.lockedUntil.value >= from + LOCKOUT && InOrder(tries)
    ensures Count(a, tries, from, Wrong) == 0
    decreases |tries|
  {
    if tries != [] {
      if tries[0].now < from + LOCKOUT {
        LockedThroughTheWindow(a, tries[1..], from);
      } else {
        NothingAfterTheWindow(a, tries, from, Wrong);
      }
    }
  }

  /** In any 30 minutes without a login at most five wrong passwords are checked; from the
      start of the window on, no more than the failure count leaves. */
  lemma {:induction false} AtMostFiveGuesses(a: Account, tries: seq<Try>, from: int)
    requires 0 <= a.failed < MAX_FAILED_ATTEMPTS && InOrder(tries)
    requires Count(a, tries, from, LoggedIn) == 0
    ensures Count(a, tries, from, Wrong) <= MAX_FAILED_ATTEMPTS
    ensures tries != [] && tries[0].now >= from ==> Count(a, tries, from, Wrong) <= MAX_FAILED_ATTEMPTS - a.failed
    decreases |tries|
  {
    if tries != [] {
      var t, rest := tries[0], tries[1..];
      var (b, o) := Attempt(a, t);
      if t.now >= from + LOCKOUT {
        NothingAfterTheWindow(a, tries, from, Wrong);
      } else if t.now >= from && o == Wrong && a.failed + 1 >= MAX_FAILED_ATTEMPTS {
        LockedThroughTheWindow(b, rest, from);
      } else {
        AtMostFiveGuesses(b, rest, from);
        assert rest != [] ==> t.now <= rest[0].now;
      }
    }
  }

  /** The bound is met: five wrong passwords at once, and the sixth try is refused, right or
      wrong, exactly while less than 30 minutes have passed. */
  lemma FiveThenRefused(now: int, later: int, correct: bool)
    requires now <= later
    ensures var five := seq(5, _ => Try(now, false));
      && Count(Account(0, None), five, now, Wrong) == 5
      && (Attempt(After(Account(0, None), five), Try(later, correct)).1 == Refused <==> later - now < LOCKOUT)
  {
    var five := seq(5, _ => Try(now, false));
    CountsUp(now, 0, five);
  }

  lemma {:induction false} CountsUp(now: int, failed: int, tries: seq<Try>)
    requires 0 <= failed < 5 && |tries| == 5 - failed && forall t :: t in tries ==> t == Try(now, false)
    ensures Count(Account(failed, None), tries, now, Wrong) == 5 - failed
    ensures After(Account(failed, None), tries) == Account(0, Some(now + LOCKOUT))
    decreases |tries|
  {
    assert tries[0] in tries;
    if failed < 4 {
      forall t | t in tries[1..] ensures t == Try(now, false) {
        assert t in tries;
      }
      CountsUp(now, failed + 1, tries[1..]);
    } else {
      assert tries[1..] == [];
    }
  }

  // ---- What a login and a lock leave ----

  predicate AllWrong(tries: seq<Try>) {
    forall t :: t in tries ==> !t.correct
  }

  lemma {:induction false} WrongTriesDoNotLock(a: Account, tries: seq<Try>)
    requires a.lockedUntil == None && 0 <= a.failed && a.failed + |tries| < 5 && AllWrong(tries)
    ensures After(a, tries).lockedUntil == None
    decreases |tries|
  {
    if tries != [] {
      assert tries[0] in tries;
      WrongTriesDoNotLock(Attempt(a, tries[0]).0, tries[1..]);
    }
  }

  /** A login forgets all failures: up to four wrong passwords after it, the right one logs in. */
  lemma LoginForgetsFailures(a: Account, t: Try, tries: seq<Try>, again: int)
    requires Attempt(a, t).1 == LoggedIn && |tries| <= 4 && AllWrong(tries)
    ensures Attempt(After(Attempt(a, t).0, tries), Try(again, true)).1 == LoggedIn
  {
    WrongTriesDoNotLock(Attempt(a, t).0, tries);
  }

  lemma {:induction false} LockedTriesChangeNothing(a: Account, tries: seq<Try>)
    requires a.lockedUntil.Some? && forall t :: t in tries ==> t.now < a.lockedUntil.value
    ensures After(a, tries) == a
    decreases |tries|
  {
    if tries != [] {
      assert tries[0] in tries;
      LockedTriesChangeNothing(a, tries[1..]);
    }
  }

  /** Tries during a lock do not prolong it: however many there were, the right password logs in
      as soon as 30 minutes have passed since the fifth failure. */
  lemma LockEndsOnTime(now: int, during: seq<Try>, later: int)
    requires (forall t :: t in during ==> t.now < now + LOCKOUT) && later >= now + LOCKOUT
    ensures var locked := After(Account(0, None), seq(5, _ => Try(now, false)));
      Attempt(After(locked, during), Try(later, true)).1 == LoggedIn
  {
    CountsUp(now, 0, seq(5, _ => Try(now, false)));
    LockedTriesChangeNothing(Account(0, Some(now + LOCKOUT)), during);
  }
}
