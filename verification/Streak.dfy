// The 30-day reward trail and the streak record a claim advances. Days are
// calendar day numbers.
module Streak {
  import opened Sums

  const CYCLE_LENGTH := 30
  const PROTECTION_GRANT_EVERY := 7
  const FIRST_AWARD := 100000
  const FULL_CYCLE := 2925000

  const TRAIL: seq<nat> := [
    5000, 7500, 10000, 12500, 15000, 20000, 50000,
    25000, 27500, 30000, 32500, 35000, 40000, 100000,
    45000, 50000, 55000, 60000, 65000, 70000, 250000,
    80000, 90000, 100000, 110000, 120000, 130000, 140000, 150000,
    1000000]

  function CycleDayFor(streak: nat): (day: nat)
    ensures 1 <= day <= CYCLE_LENGTH
    ensures streak >= 1 ==> (streak - day) % CYCLE_LENGTH == 0
    ensures streak == 0 ==> day == 1
  {
    if streak == 0 then 1 else (streak - 1) % CYCLE_LENGTH + 1
  }

  function RewardFor(streak: nat): nat { TRAIL[CycleDayFor(streak) - 1] }

  datatype Record = Record(
    current: nat,
    best: nat,
    lastClaim: Option<int>,
    protection: bool,
    protectionUsed: Option<int>,
    total: nat)

  const NEVER_CLAIMED := Record(0, 0, None, false, None, 0)

  function DayGap(from: Option<int>, to: int): int {
    if from.None? then 0 else to - from.value
  }

  function Advance(record: Record, day: int): Record {
    var gap := DayGap(record.lastClaim, day);
    var covered := gap == 2 && record.protection;
    var current := if gap == 1 || covered then record.current + 1 else 1;
    Record(
      current,
      if current > record.best then current else record.best,
      Some(day),
      current % PROTECTION_GRANT_EVERY == 0 || (record.protection && !covered),
      if covered then Some(day - 1) else record.protectionUsed,
      record.total + 1)
  }

  // The record updated field by field, as the service does.
  method AdvanceRecord(record: Record, day: int) returns (next: Record)
    ensures next == Advance(record, day)
  {
    next := record;
    var gap := DayGap(next.lastClaim, day);
    if next.lastClaim == None || gap <= 0 {
      next := next.(current := 1);
    } else if gap == 1 {
      next := next.(current := next.current + 1);
    } else if gap == 2 && next.protection {
      next := next.(current := next.current + 1);
      next := next.(protection := false);
      next := next.(protectionUsed := Some(day - 1));
    } else {
      next := next.(current := 1);
    }
    next := next.(lastClaim := Some(day), total := next.total + 1);
    if next.current > next.best {
      next := next.(best := next.current);
    }
    if next.current % PROTECTION_GRANT_EVERY == 0 {
      next := next.(protection := true);
    }
  }

  function Award(next: Record): nat {
    if next.total <= 1 then FIRST_AWARD else RewardFor(next.current)
  }

  // ---------- Runs of claims ----------

  function Claims(days: seq<int>): Record
    decreases |days|
  {
    if days == [] then NEVER_CLAIMED else Advance(Claims(days[..|days| - 1]), days[|days| - 1])
  }

  predicate Increasing(days: seq<int>) { forall i, j :: 0 <= i < j < |days| ==> days[i] < days[j] }

  // Days skipped between the first and the last of the last k claims.
  function Missed(days: seq<int>, k: nat): int
    requires 1 <= k <= |days|
  {
    days[|days| - 1] - days[|days| - k] - (k - 1)
  }

  function Bit(b: bool): nat { if b then 1 else 0 }

  lemma {:induction false} ClaimsCount(days: seq<int>)
    ensures Claims(days).total == |days|
    ensures Claims(days).lastClaim == if days == [] then None else Some(days[|days| - 1])
    ensures days == [] || 1 <= Claims(days).current <= |days|
    ensures Claims(days).current <= Claims(days).best <= |days|
    decreases |days|
  {
    if days != [] { ClaimsCount(days[..|days| - 1]); }
  }

  // A streak of k: its claims are at most two days apart, it began after a gap
  // that no protection covered, every day skipped within it was covered by one,
  // and there are no more of those than the one it started with plus one for every
  // seven days of it.
  ghost predicate StreakIsRecent(days: seq<int>, k: nat) {
    && 1 <= k <= |days|
    && (forall i :: |days| - k < i < |days| ==> Close(days, i))
    && (k < |days| ==> Broken(days, |days| - k))
  }

  // More was skipped before the i-th claim than a protection could cover then.
  ghost predicate Broken(days: seq<int>, i: nat)
    requires 0 < i < |days|
  {
    var gap := days[i] - days[i - 1];
    gap > 2 || (gap == 2 && !Claims(days[..i]).protection)
  }

  // At most one day was skipped before the i-th claim.
  ghost predicate Close(days: seq<int>, i: nat)
    requires 0 < i < |days|
  {
    1 <= days[i] - days[i - 1] <= 2
  }

  ghost predicate MissesCovered(days: seq<int>, k: nat) {
    && 1 <= k <= |days|
    && 0 <= Missed(days, k)
    && Missed(days, k) + Bit(Claims(days).protection)
       <= Bit(Claims(days[..|days| - k + 1]).protection) + k / PROTECTION_GRANT_EVERY
    && (k % PROTECTION_GRANT_EVERY == 0 ==> Claims(days).protection)
  }

  lemma {:induction false} StreakMeaning(days: seq<int>)
    requires Increasing(days) && days != []
    ensures StreakIsRecent(days, Claims(days).current)
    ensures MissesCovered(days, Claims(days).current)
    decreases |days|
  {
    hide StreakIsRecent, MissesCovered;
    var n := |days|;
    var before := days[..n - 1];
    if n == 1 {
      FirstClaim(days);
    } else {
      StreakMeaning(before);
      RecentStep(days);
      MissesStep(days);
    }
  }

  lemma FirstClaim(days: seq<int>)
    requires |days| == 1
    ensures StreakIsRecent(days, Claims(days).current) && MissesCovered(days, Claims(days).current)
  {
    assert days[..1] == days;
  }

  lemma RecentStep(days: seq<int>)
    requires Increasing(days) && |days| >= 2
    requires StreakIsRecent(days[..|days| - 1], Claims(days[..|days| - 1]).current)
    ensures StreakIsRecent(days, Claims(days).current)
  {
    hide Claims, Broken, Close;
    var n := |days|;
    var before := days[..n - 1];
    ClaimsStep(days);
    var k := Claims(days).current;
    if k == 1 {
      FreshStart(days);
    } else {
      assert Claims(before).current == k - 1;
      forall i | n - k < i < n
        ensures Close(days, i)
      {
        SameGap(days, i);
      }
      if k < n { SameGap(days, n - k); }
    }
  }

  // A claim that restarts the streak was not covered.
  lemma FreshStart(days: seq<int>)
    requires Increasing(days) && |days| >= 2 && Claims(days).current == 1
    ensures Broken(days, |days| - 1)
  {
    hide Claims;
    ClaimsStep(days);
  }

  // Earlier gaps stay as they were; the last claim of a running streak is close.
  lemma SameGap(days: seq<int>, i: nat)
    requires Increasing(days) && 0 < i < |days| && |days| >= 2
    ensures i < |days| - 1 ==> Close(days[..|days| - 1], i) == Close(days, i) && Broken(days[..|days| - 1], i) == Broken(days, i)
    ensures i == |days| - 1 && Claims(days).current > 1 ==> Close(days, i)
  {
    hide Claims;
    ClaimsStep(days);
    if i < |days| - 1 { assert days[..|days| - 1][..i] == days[..i]; }
  }

  lemma MissesStep(days: seq<int>)
    requires Increasing(days) && |days| >= 2
    requires MissesCovered(days[..|days| - 1], Claims(days[..|days| - 1]).current)
    ensures MissesCovered(days, Claims(days).current)
  {
    hide Claims;
    var n := |days|;
    var before := days[..n - 1];
    var last, next := Claims(before), Claims(days);
    ClaimsStep(days);
    var k := next.current;
    StepDivision(k);
    if k == 1 {
      assert days[..n] == days;
    } else {
      assert before[..n - k + 1] == days[..n - k + 1];
      assert Missed(days, k) == Missed(before, k - 1) + (days[n - 1] - days[n - 2] - 1);
      assert Bit(next.protection) + (days[n - 1] - days[n - 2] - 1)
          <= Bit(last.protection) + (if k % PROTECTION_GRANT_EVERY == 0 then 1 else 0);
    }
  }

  // One claim: it continues the streak or starts a new one.
  lemma ClaimsStep(days: seq<int>)
    requires Increasing(days) && |days| >= 2
    ensures var last := Claims(days[..|days| - 1]); var next := Claims(days);
      var gap := days[|days| - 1] - days[|days| - 2];
      && next.current >= 1
      && (next.current == 1 ==> gap > 2 || (gap == 2 && !last.protection))
      && (next.current > 1 ==> next.current == last.current + 1 && (gap == 1 || (gap == 2 && last.protection)))
      && (next.current > 1 && gap == 2 ==> next.protection == (next.current % PROTECTION_GRANT_EVERY == 0))
      && (next.protection ==> last.protection || next.current % PROTECTION_GRANT_EVERY == 0)
      && (next.current % PROTECTION_GRANT_EVERY == 0 ==> next.protection)
  {
    ClaimsCount(days[..|days| - 1]);
  }

  lemma StepDivision(k: nat)
    requires k >= 1
    ensures k / PROTECTION_GRANT_EVERY == (k - 1) / PROTECTION_GRANT_EVERY + (if k % PROTECTION_GRANT_EVERY == 0 then 1 else 0)
  {
  }

  // At most one skipped day for a protection carried in, and one for each full
  // week already behind the streak.
  lemma MissedBound(days: seq<int>)
    requires Increasing(days) && days != []
    ensures var k := Claims(days).current;
      1 <= k <= |days| && Missed(days, k) <= 1 + (k - 1) / PROTECTION_GRANT_EVERY
  {
    hide Claims;
    StreakMeaning(days);
    StepDivision(Claims(days).current);
  }

  // The streak after the first i claims.
  ghost function CurrentAt(days: seq<int>, i: nat): nat
    requires i <= |days|
  {
    Claims(days[..i]).current
  }

  // Best is the largest streak there ever was.
  lemma {:induction false} BestIsRunningMax(days: seq<int>)
    requires days != []
    ensures forall i :: 1 <= i <= |days| ==> CurrentAt(days, i) <= Claims(days).best
    ensures exists i :: 1 <= i <= |days| && CurrentAt(days, i) == Claims(days).best
    decreases |days|
  {
    hide Advance, CurrentAt;
    var n := |days|;
    var before := days[..n - 1];
    BestStep(Claims(before), days[n - 1]);
    CurrentAtLast(days);
    if n > 1 {
      BestIsRunningMax(before);
      forall i | 1 <= i < n ensures CurrentAt(days, i) == CurrentAt(before, i) { CurrentAtPrefix(days, i); }
    }
  }

  lemma CurrentAtLast(days: seq<int>)
    ensures CurrentAt(days, |days|) == Claims(days).current
  {
    assert days[..|days|] == days;
  }

  lemma CurrentAtPrefix(days: seq<int>, i: nat)
    requires i < |days|
    ensures CurrentAt(days, i) == CurrentAt(days[..|days| - 1], i)
  {
    assert days[..|days| - 1][..i] == days[..i];
  }

  lemma BestStep(record: Record, day: int)
    ensures Advance(record, day).best >= record.best && Advance(record, day).best >= Advance(record, day).current
    ensures Advance(record, day).best == record.best || Advance(record, day).best == Advance(record, day).current
  {
  }

  // ---------- When a protection is held ----------

  // The i-th claim earned one, or used one to bridge a skipped day.
  ghost predicate Earned(days: seq<int>, i: nat)
    requires 1 <= i <= |days|
  {
    CurrentAt(days, i) % 7 == 0
  }

  ghost predicate Used(days: seq<int>, i: nat)
    requires 2 <= i <= |days|
  {
    days[i - 1] - days[i - 2] == 2 && CurrentAt(days, i) > 1
  }

  // The i-th claim earned a protection that no later claim has used.
  ghost predicate StillHolds(days: seq<int>, i: nat)
    requires 1 <= i <= |days|
  {
    Earned(days, i) && forall j :: i < j <= |days| ==> !Used(days, j)
  }

  // A protection is held exactly if some claim earned one and none since has used
  // it: it is kept through any number of claims and through a lost streak.
  lemma {:induction false} ProtectionMeaning(days: seq<int>)
    requires Increasing(days)
    ensures Claims(days).protection <==> exists i :: 1 <= i <= |days| && StillHolds(days, i)
    decreases |days|
  {
    if days != [] {
      var n := |days|;
      var before := days[..n - 1];
      ProtectionMeaning(before);
      ProtectionStep(days);
      hide Claims, CurrentAt;
      forall i | 1 <= i < n
        ensures StillHolds(days, i) <==> StillHolds(before, i) && (n >= 2 ==> !Used(days, n))
      {
        HoldsOn(days, i);
      }
      assert StillHolds(days, n) <==> Earned(days, n);
    }
  }

  lemma ProtectionStep(days: seq<int>)
    requires Increasing(days) && days != []
    ensures var n := |days|;
      Claims(days).protection <==> Earned(days, n) || (Claims(days[..n - 1]).protection && n >= 2 && !Used(days, n))
  {
    var n := |days|;
    ClaimsCount(days[..n - 1]);
    CurrentAtLast(days);
  }

  lemma HoldsOn(days: seq<int>, i: nat)
    requires 1 <= i < |days|
    ensures StillHolds(days, i) <==> StillHolds(days[..|days| - 1], i) && !Used(days, |days|)
  {
    hide CurrentAt;
    var before := days[..|days| - 1];
    forall j | 1 <= j < |days| ensures CurrentAt(days, j) == CurrentAt(before, j) { CurrentAtPrefix(days, j); }
    assert forall j :: 2 <= j < |days| ==> Used(days, j) == Used(before, j);
  }

  // ---------- What a claim pays ----------

  // The first claim ever pays the welcome award, every later one its trail day.
  lemma AwardMeaning(days: seq<int>)
    requires days != []
    ensures Award(Claims(days)) == if |days| == 1 then 100000 else RewardFor(Claims(days).current)
  {
    hide Claims, RewardFor;
    ClaimsCount(days);
  }

  // ---------- What a cycle pays ----------

  function Paid(from: nat, n: nat): nat {
    if n == 0 then 0 else Paid(from, n - 1) + RewardFor(from + n - 1)
  }

  lemma {:induction false} PaidShift(from: nat, n: nat)
    requires from >= 1
    ensures Paid(from + 1, n) + RewardFor(from) == Paid(from, n) + RewardFor(from + n)
  {
    hide RewardFor;
    if n > 0 { PaidShift(from, n - 1); }
  }

  lemma PaidNext(n: nat)
    requires n < CYCLE_LENGTH
    ensures Paid(1, n + 1) == Paid(1, n) + TRAIL[n]
  {
    hide TRAIL;
    assert CycleDayFor(n + 1) == n + 1;
  }

  lemma PaidUpTo6()
    requires Paid(1, 0) == 0
    ensures Paid(1, 6) == 70000
  {
    hide Paid;
    PaidNext(0); PaidNext(1); PaidNext(2); PaidNext(3); PaidNext(4); PaidNext(5);
  }

  lemma PaidUpTo12()
    requires Paid(1, 6) == 70000
    ensures Paid(1, 12) == 270000
  {
    hide Paid;
    PaidNext(6); PaidNext(7); PaidNext(8); PaidNext(9); PaidNext(10); PaidNext(11);
  }

  lemma PaidUpTo18()
    requires Paid(1, 12) == 270000
    ensures Paid(1, 18) == 620000
  {
    hide Paid;
    PaidNext(12); PaidNext(13); PaidNext(14); PaidNext(15); PaidNext(16); PaidNext(17);
  }

  lemma PaidUpTo24()
    requires Paid(1, 18) == 620000
    ensures Paid(1, 24) == 1275000
  {
    hide Paid;
    PaidNext(18); PaidNext(19); PaidNext(20); PaidNext(21); PaidNext(22); PaidNext(23);
  }

  lemma PaidUpTo30()
    requires Paid(1, 24) == 1275000
    ensures Paid(1, 30) == 2925000
  {
    hide Paid;
    PaidNext(24); PaidNext(25); PaidNext(26); PaidNext(27); PaidNext(28); PaidNext(29);
  }

  lemma FirstCyclePaid()
    ensures Paid(1, CYCLE_LENGTH) == FULL_CYCLE
  {
    assert Paid(1, 0) == 0;
    hide Paid;
    PaidUpTo6(); PaidUpTo12(); PaidUpTo18(); PaidUpTo24(); PaidUpTo30();
  }

  // Any thirty consecutive days of a streak pay the same, wherever they start.
  lemma {:induction false} AnyCyclePaid(from: nat)
    requires from >= 1
    ensures Paid(from, CYCLE_LENGTH) == FULL_CYCLE
  {
    hide RewardFor, Paid;
    if from == 1 {
      FirstCyclePaid();
    } else {
      AnyCyclePaid(from - 1);
      PaidShift(from - 1, CYCLE_LENGTH);
      RewardRepeats(from - 1);
    }
  }

  lemma RewardRepeats(streak: nat)
    requires streak >= 1
    ensures RewardFor(streak + CYCLE_LENGTH) == RewardFor(streak)
  {
    hide TRAIL;
  }
}
