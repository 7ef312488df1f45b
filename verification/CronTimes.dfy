/** Cron expressions as schedules, and the counting of missed fires. */
module CronTimes {
  import opened Numbers
  import opened Options

  const MAX_MISSED_COUNT := 10000

  /** The clock counts microseconds; occurrences and records are whole seconds. */
  const SECOND := 1000000

  /** When a whole second begins. */
  function Moment(second: int): int { 1000000 * second }

  /** The second a reading falls in, and the first one that does not begin before it. */
  function Secs(now: int): int { now / 1000000 }

  function SecsUp(now: int): int { -((-now) / 1000000) }

  /** A cron expression is an unbounded, strictly increasing sequence of whole-second
      times: `s(i)` is the i-th occurrence, counted from an arbitrary one. */
  type Schedule = int -> int

  ghost predicate Increasing(s: Schedule) { forall i :: s(i) < s(i + 1) }

  ghost predicate Occurs(s: Schedule, t: int) { exists i :: s(i) == t }

  lemma {:induction false} Grows(s: Schedule, i: int, j: int)
    requires Increasing(s) && i <= j
    ensures s(i) + (j - i) <= s(j)
    decreases j - i
  {
    if i < j {
      Grows(s, i, j - 1);
      assert s(j - 1) < s(j - 1 + 1);
    }
  }

  function FirstAbove(s: Schedule, t: int, i: int): (k: int)
    requires Increasing(s) && s(i - 1) <= t
    ensures s(k - 1) <= t < s(k)
    decreases t - s(i)
  {
    if s(i) > t then i
    else
      assert s(i) < s(i + 1);
      FirstAbove(s, t, i + 1)
  }

  function FirstBelow(s: Schedule, t: int, i: int): (k: int)
    requires Increasing(s) && t < s(i)
    ensures s(k - 1) <= t < s(k)
    decreases s(i) - t
  {
    if s(i - 1) <= t then i
    else
      assert s(i - 1) < s(i - 1 + 1);
      FirstBelow(s, t, i - 1)
  }

  /** The index of the first occurrence after `t`. It always exists. */
  function IndexAfter(s: Schedule, t: int): (k: int)
    requires Increasing(s)
    ensures s(k - 1) <= t < s(k)
  {
    if s(0) <= t then FirstAbove(s, t, 1) else FirstBelow(s, t, 0)
  }

  lemma IndexAfterSplits(s: Schedule, t: int, i: int)
    requires Increasing(s)
    ensures t < s(i) <==> IndexAfter(s, t) <= i
  {
    var k := IndexAfter(s, t);
    if k <= i { Grows(s, k, i); } else { Grows(s, i, k - 1); }
  }

  /** The next occurrence strictly after a reading of the clock. */
  function NextFire(s: Schedule, now: int): (t: int)
    requires Increasing(s)
    ensures now < Moment(t) && Occurs(s, t)
    ensures forall i :: Moment(s(i)) <= now || t <= s(i)
  {
    var k := IndexAfter(s, Secs(now));
    assert forall i :: Moment(s(i)) <= now || s(k) <= s(i) by {
      forall i ensures Moment(s(i)) <= now || s(k) <= s(i) {
        IndexAfterSplits(s, Secs(now), i);
        if k <= i { Grows(s, k, i); }
      }
    }
    s(k)
  }

  /** The last occurrence strictly before a moment. */
  function PrevFire(s: Schedule, before: int): (t: int)
    requires Increasing(s)
    ensures Moment(t) < before && Occurs(s, t)
    ensures forall i :: before <= Moment(s(i)) || s(i) <= t
  {
    var k := IndexAfter(s, SecsUp(before) - 1) - 1;
    assert forall i :: before <= Moment(s(i)) || s(i) <= s(k) by {
      forall i ensures before <= Moment(s(i)) || s(i) <= s(k) {
        IndexAfterSplits(s, SecsUp(before) - 1, i);
        if i <= k { Grows(s, i, k); }
      }
    }
    s(k)
  }

  /** The occurrences in (after, until] are the n indices from lo on. */
  ghost predicate Missed(s: Schedule, after: int, until: int, lo: int, n: nat) {
    forall i :: after < s(i) <= until <==> lo <= i < lo + n
  }

  /** How many occurrences after a second have come by `now`, capped; and the latest one
      less than a second past `now`, exactly, which may not have come yet. */
  method MissedFires(s: Schedule, after: int, now: int)
    returns (count: nat, latest: Option<int>, ghost lo: int, ghost n: nat)
    requires Increasing(s)
    ensures Missed(s, after, Secs(now), lo, n) && count == Min(n, MAX_MISSED_COUNT)
    ensures latest.None? <==> forall i :: after < s(i) ==> now + SECOND <= Moment(s(i))
    ensures latest == if PrevFire(s, now + SECOND) <= after then None else Some(PrevFire(s, now + SECOND))
    ensures latest.Some? ==> && after < latest.value && Moment(latest.value) < now + SECOND
                             && Occurs(s, latest.value)
                             && forall i :: Moment(s(i)) < now + SECOND ==> s(i) <= latest.value
    ensures latest.Some? ==> (n == 0 <==> forall i :: after < s(i) ==> now < Moment(s(i)))
  {
    lo := IndexAfter(s, after);
    n := CountBetween(s, after, Secs(now));
    var last := PrevFire(s, now + SECOND);
    if last <= after {
      NoneCame(s, after, now, lo, n);
      return 0, None, lo, n;
    }
    SomeCame(s, after, now, lo, n);
    var k := IndexAfter(s, after);
    count := 0;
    while count < MAX_MISSED_COUNT && Moment(s(k)) <= now
      invariant k == lo + count && count <= n && count <= MAX_MISSED_COUNT
      decreases MAX_MISSED_COUNT - count
    {
      IndexAfterSplits(s, after, k);
      k := k + 1;
      count := count + 1;
    }
    IndexAfterSplits(s, after, k);
    return count, Some(last), lo, n;
  }

  ghost function CountBetween(s: Schedule, after: int, until: int): (n: nat)
    requires Increasing(s)
    ensures Missed(s, after, until, IndexAfter(s, after), n)
  {
    var lo, hi := IndexAfter(s, after), IndexAfter(s, until);
    var n: nat := if lo < hi then hi - lo else 0;
    assert forall i :: after < s(i) <= until <==> lo <= i < lo + n by {
      forall i ensures after < s(i) <= until <==> lo <= i < lo + n {
        IndexAfterSplits(s, after, i);
        IndexAfterSplits(s, until, i);
      }
    }
    n
  }

  lemma NoneCame(s: Schedule, after: int, now: int, lo: int, n: nat)
    requires Increasing(s) && Missed(s, after, Secs(now), lo, n) && PrevFire(s, now + SECOND) <= after
    ensures n == 0 && forall i :: after < s(i) ==> now + SECOND <= Moment(s(i))
  {
    assert !(after < s(lo) <= Secs(now));
  }

  lemma SomeCame(s: Schedule, after: int, now: int, lo: int, n: nat)
    requires Increasing(s) && Missed(s, after, Secs(now), lo, n)
    ensures n == 0 <==> forall i :: after < s(i) ==> now < Moment(s(i))
  {
    if n != 0 { assert after < s(lo) <= Secs(now); }
    else { forall i | after < s(i) ensures now < Moment(s(i)) { assert !(after < s(i) <= Secs(now)); } }
  }
}
