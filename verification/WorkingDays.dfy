/**
 Counting working days on any calendar in which four consecutive days always contain one: finding the next, adding n,
 and what the sum means.
 */
module WorkingDays {
  type Day = d: int | d >= 1 witness 1

  /** Any four consecutive days contain a working day. */
  ghost predicate Frequent(open: Day -> bool) {
    forall d: Day :: HasNext(open, d)
  }

  ghost predicate HasNext(open: Day -> bool, d: Day) {
    exists e: Day :: d < e <= d + 4 && open(e)
  }

  /** The first working day from k on, when there is one up to `end`. */
  function Seek(open: Day -> bool, k: Day, end: Day): (e: Day)
    requires exists e: Day :: k <= e <= end && open(e)
    ensures k <= e <= end && open(e)
    decreases end - k
  {
    if open(k) then k else Seek(open, k + 1, end)
  }

  /** The first working day after d. */
  function Next(open: Day -> bool, d: Day): (e: Day)
    requires Frequent(open)
    ensures d < e <= d + 4 && open(e)
  {
    assert HasNext(open, d);
    Seek(open, d + 1, d + 4)
  }

  lemma {:induction false} SeekIsFirst(open: Day -> bool, k: Day, end: Day, j: Day)
    requires exists e: Day :: k <= e <= end && open(e)
    requires k <= j < Seek(open, k, end)
    ensures !open(j)
    decreases end - k
  {
    if k < j { SeekIsFirst(open, k + 1, end, j); }
  }

  /** Nothing between d and the next working day is one. */
  lemma NextIsFirst(open: Day -> bool, d: Day, j: Day)
    requires Frequent(open) && d < j < Next(open, d)
    ensures !open(j)
  {
    assert HasNext(open, d);
    SeekIsFirst(open, d + 1, d + 4, j);
  }

  function Add(open: Day -> bool, d: Day, n: nat): Day
    requires Frequent(open)
  {
    if n == 0 then d else Next(open, Add(open, d, n - 1))
  }

  /** Working days after a, up to and including b. */
  function Count(open: Day -> bool, a: Day, b: Day): nat
    decreases b - a
  {
    if b <= a then 0 else Count(open, a, b - 1) + if open(b) then 1 else 0
  }

  lemma {:induction false} CountSplits(open: Day -> bool, a: Day, b: Day, c: Day)
    requires a <= b <= c
    ensures Count(open, a, c) == Count(open, a, b) + Count(open, b, c)
    decreases c - b
  {
    if b < c { CountSplits(open, a, b, c - 1); }
  }

  lemma {:induction false} NothingBefore(open: Day -> bool, d: Day, k: Day)
    requires Frequent(open) && d <= k < Next(open, d)
    ensures Count(open, d, k) == 0
    decreases k - d
  {
    if d < k {
      NothingBefore(open, d, k - 1);
      NextIsFirst(open, d, k);
    }
  }

  /** e is d itself or a working day after it, with n working days after d up to and including e. */
  predicate Lands(open: Day -> bool, d: Day, n: nat, e: Day) {
    d <= e && Count(open, d, e) == n && (e == d || open(e))
  }

  lemma {:induction false} AddLands(open: Day -> bool, d: Day, n: nat)
    requires Frequent(open)
    ensures Lands(open, d, n, Add(open, d, n)) && d + n <= Add(open, d, n) <= d + 4 * n
  {
    if n > 0 {
      var last := Add(open, d, n - 1);
      var e := Next(open, last);
      AddLands(open, d, n - 1);
      NothingBefore(open, last, e - 1);
      CountSplits(open, d, last, e);
    }
  }

  /** Adding n working days gives the one day that lies n working days on, within four calendar days for each. */
  lemma AddIsTheUniqueDay(open: Day -> bool, d: Day, n: nat, e: Day)
    requires Frequent(open)
    ensures Lands(open, d, n, e) <==> e == Add(open, d, n)
    ensures Add(open, d, n) <= d + 4 * n
  {
    AddLands(open, d, n);
    if Lands(open, d, n, e) {
      var f := Add(open, d, n);
      if e < f { CountSplits(open, d, e, f); }
      if f < e { CountSplits(open, d, f, e); }
    }
  }

  lemma NextIsMonotone(open: Day -> bool, d: Day, e: Day)
    requires Frequent(open) && d <= e
    ensures Next(open, d) <= Next(open, e)
  {
    if e < Next(open, e) < Next(open, d) { NextIsFirst(open, d, Next(open, e)); }
  }

  /** Later starts and more days never give an earlier day. */
  lemma {:induction false} AddIsMonotone(open: Day -> bool, d: Day, e: Day, n: nat, m: nat)
    requires Frequent(open) && d <= e && n <= m
    ensures Add(open, d, n) <= Add(open, e, m)
    decreases n + m
  {
    if n < m {
      AddIsMonotone(open, d, e, n, m - 1);
    } else if n > 0 {
      AddIsMonotone(open, d, e, n - 1, n - 1);
      NextIsMonotone(open, Add(open, d, n - 1), Add(open, e, n - 1));
    }
  }

  /** Adding in two steps is adding the sum. */
  lemma {:induction false} AddComposes(open: Day -> bool, d: Day, a: nat, b: nat)
    requires Frequent(open)
    ensures Add(open, Add(open, d, a), b) == Add(open, d, a + b)
  {
    if b > 0 { AddComposes(open, d, a, b - 1); }
  }
}
