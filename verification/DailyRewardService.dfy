// The daily reward service over its rows: the claim and the calendar.
module DailyRewardService {
  import opened Sums
  import opened Replies
  import opened Streak
  import opened DailyReward

  datatype CalendarDay = CalendarDay(day: nat, amount: nat, milestone: bool, claimed: bool, today: bool)

  datatype StatusReply = StatusReply(
    currentStreak: nat,
    bestStreak: nat,
    totalClaims: nat,
    cycleDay: nat,
    protectionAvailable: bool,
    claimedToday: bool,
    streakAtRisk: bool,
    streakLost: bool,
    protectionWillCover: bool,
    days: seq<CalendarDay>)

  predicate IsMilestone(cycleDay: nat) {
    cycleDay == 7 || cycleDay == 14 || cycleDay == 21 || cycleDay == CYCLE_LENGTH
  }

  // A milestone is exactly a day that pays more than the day after it.
  lemma MilestonePaysMore(streak: nat)
    requires streak >= 1
    ensures IsMilestone(CycleDayFor(streak)) <==> RewardFor(streak) > RewardFor(streak + 1)
  {
    var d := CycleDayFor(streak);
    NextCycleDay(streak);
    assert RewardFor(streak) == TRAIL[d - 1] && RewardFor(streak + 1) == TRAIL[if d == CYCLE_LENGTH then 0 else d];
  }

  lemma NextCycleDay(streak: nat)
    requires streak >= 1
    ensures CycleDayFor(streak + 1) == if CycleDayFor(streak) == CYCLE_LENGTH then 1 else CycleDayFor(streak) + 1
  {
    hide TRAIL;
  }

  class Service {
    var streak: Record
    var rows: map<int, DayRow>
    var credits: map<int, nat>
    ghost var claimed: seq<int>

    ghost function State(today: int): Shared
      reads this
    {
      Shared(today, streak, rows, credits, claimed)
    }

    // The day row is create-only and takes the streak row with it; a day already
    // claimed answers with its stored row.
    method Claim(day: int, next: Record, ghost read: Record, replies: seq<Reply>) returns (row: Option<DayRow>, n: nat)
      requires |replies| >= 2 && next == Proposed(read, day)
      modifies this`streak, this`rows, this`claimed
      ensures 1 <= n <= 2
      ensures (State(day), if row.None? then Done(Error)
                           else if row.value.completed then Done(AlreadyPaid(day))
                           else Crediting(day, row.value.amount))
        == Solo(old(State(day)), Claiming(day, read), replies[..n])
      ensures day in old(rows) ==> streak == old(streak) && rows == old(rows)
      ensures row.Some? ==> day in rows && rows[day] == row.value
    {
      ghost var s, pc := State(day), Claiming(day, read);
      SoloOne(s, pc, replies);
      n := 1;
      if replies[0] == Refused { return None, 1; }
      if day !in rows {
        streak, rows, claimed := next, rows[day := DayRow(Award(next), false)], claimed + [day];
        row := if replies[0] == Landed then Some(rows[day]) else None;
        return;
      }
      SoloTwo(s, pc, replies);
      row, n := if replies[1] == Landed then Some(rows[day]) else None, 2;
    }

    method Credit(day: int, amount: nat, reply: Reply)
      modifies this`credits
      ensures credits == if reply == Refused || day in old(credits) then old(credits) else old(credits)[day := amount]
    {
      if reply != Refused && day !in credits {
        credits := credits[day := amount];
      }
    }

    method Complete(day: int, reply: Reply) returns (found: bool)
      modifies this`rows
      ensures found <==> day in old(rows)
      ensures rows == if found && reply != Refused then old(rows)[day := old(rows)[day].(completed := true)] else old(rows)
    {
      found := day in rows;
      if found && reply != Refused {
        rows := rows[day := rows[day].(completed := true)];
      }
    }

    // Today's claim: record it, credit it, mark it paid. Its result and its
    // writes are those of the machine; the day it pays is credited, and a day
    // already marked paid pays nothing and changes nothing.
    method Spin(day: int, replies: seq<Reply>) returns (result: Result, ghost n: nat)
      requires |replies| >= 5
      modifies this
      ensures n <= 5 && (State(day), Done(result)) == Solo(old(State(day)), Loading(day), replies[..n])
      ensures SharedOk(old(State(day))) ==> SharedOk(State(day))
      ensures SharedOk(old(State(day))) && result.Paid? ==>
        && result == Paid(day, Preview(old(State(day))))
        && day in credits && credits[day] == result.amount
      ensures day in old(rows) && old(rows)[day].completed ==>
        !result.Paid? && streak == old(streak) && rows == old(rows) && credits == old(credits)
    {
      hide Solo, DailyReward.Advance, SharedOk, Preview;
      ghost var s := State(day);
      result, n := Attempt(day, replies);
      if SharedOk(s) {
        SoloKeeps(s, Loading(day), replies[..n]);
        if result.Paid? { PaidIsPreview(s, replies[..n], result); }
      }
    }

    method Attempt(day: int, replies: seq<Reply>) returns (result: Result, ghost n: nat)
      requires |replies| >= 5
      modifies this
      ensures n <= 5 && (State(day), Done(result)) == Solo(old(State(day)), Loading(day), replies[..n])
      ensures result.Paid? ==> result.day == day
      ensures day in old(rows) && old(rows)[day].completed ==>
        !result.Paid? && streak == old(streak) && rows == old(rows) && credits == old(credits)
    {
      hide Solo;
      ghost var s, pc := State(day), Loading(day);
      SoloOne(s, pc, replies);
      if replies[0] != Landed { return Error, 1; }
      var retry := streak.lastClaim == Some(day);
      var next := streak;
      if !retry { next := AdvanceRecord(streak, day); }
      var row, used := Claim(day, next, streak, replies[1..]);
      used := used + 1;
      SoloFirst(s, pc, replies, used);
      if row.None? { return Error, used; }
      if row.value.completed { return AlreadyPaid(day), used; }
      ghost var m;
      result, m := Pay(day, row.value.amount, replies[used..]);
      assert replies[..used + m] == replies[..used] + replies[used..][..m];
      SoloSplit(s, pc, replies[..used], replies[used..][..m]);
      n := used + m;
    }

    method Pay(day: int, amount: nat, replies: seq<Reply>) returns (result: Result, ghost n: nat)
      requires |replies| >= 2
      modifies this`credits, this`rows
      ensures n <= 2 && (State(day), Done(result)) == Solo(old(State(day)), Crediting(day, amount), replies[..n])
      ensures result == Error || result == Paid(day, amount)
    {
      ghost var s, pc := State(day), Crediting(day, amount);
      SoloOne(s, pc, replies);
      Credit(day, amount, replies[0]);
      if replies[0] != Landed { return Error, 1; }
      SoloTwo(s, pc, replies);
      var found := Complete(day, replies[1]);
      result, n := if found && replies[1] == Landed then Paid(day, amount) else Error, 2;
    }

    // The calendar. Whatever the stored record: thirty slots numbered in order,
    // exactly one of them today's, the claimed ones a prefix, and a streak either
    // lost or at risk but never both. For every record that claims can produce,
    // today's slot shows exactly what the claim pays.
    method Status(day: int) returns (r: StatusReply)
      ensures |r.days| == CYCLE_LENGTH
      ensures forall i :: 0 <= i < CYCLE_LENGTH ==> r.days[i].day == i + 1 && (r.days[i].today <==> r.days[i].day == r.cycleDay)
      ensures 1 <= r.cycleDay <= CYCLE_LENGTH && r.days[r.cycleDay - 1].today
      ensures var k := if r.claimedToday then r.cycleDay else r.cycleDay - 1;
        forall i :: 0 <= i < CYCLE_LENGTH ==> (r.days[i].claimed <==> i < k)
      ensures forall i :: 0 <= i < CYCLE_LENGTH ==> (r.days[i].milestone <==> IsMilestone(i + 1))
      ensures r.claimedToday <==> streak.lastClaim == Some(day) && day in rows && rows[day].completed
      ensures r.days[r.cycleDay - 1].claimed <==> r.claimedToday
      ensures SharedOk(State(day)) ==> r.days[r.cycleDay - 1].amount == Preview(State(day))
      ensures r.streakLost || r.streakAtRisk ==> streak.current > 0 && streak.lastClaim != Some(day)
      ensures streak.current > 0 && streak.lastClaim != Some(day) ==> (r.streakLost <==> !r.streakAtRisk)
      ensures r.streakAtRisk ==> Proposed(streak, day).current == streak.current + 1
      ensures r.streakLost ==> Proposed(streak, day).current == 1
      ensures r.cycleDay == CycleDayFor(Proposed(streak, day).current)
      ensures r.protectionWillCover <==> streak.protection && streak.lastClaim.Some? && day - streak.lastClaim.value == 2
      ensures r.protectionWillCover ==>
        Proposed(streak, day).current == streak.current + 1 && Proposed(streak, day).protectionUsed == Some(day - 1)
      ensures (r.currentStreak, r.bestStreak, r.totalClaims, r.protectionAvailable)
        == (streak.current, streak.best, streak.total, streak.protection)
    {
      hide SharedOk, IsMilestone, TRAIL, SlotAmount, Award;
      var advancedToday := streak.lastClaim == Some(day);
      var claimedToday := advancedToday;
      if advancedToday {
        claimedToday := day in rows && rows[day].completed;
      }
      var shown := streak;
      if !advancedToday { shown := AdvanceRecord(streak, day); }
      var cycleDay := CycleDayFor(shown.current);
      var lost := !advancedToday && streak.current > 0 && shown.current == 1;
      var days := Calendar(shown, cycleDay, claimedToday);
      r := StatusReply(streak.current, streak.best, streak.total, cycleDay, streak.protection, claimedToday,
        !advancedToday && streak.current > 0 && !lost, lost,
        !advancedToday && streak.protection && DayGap(streak.lastClaim, day) == 2, days);
      if SharedOk(State(day)) {
        FirstClaimIsDayOne(State(day));
        TodaySlotPaysAward(shown, claimedToday);
      }
    }
  }

  function SlotAmount(shown: Record, i: nat): nat
    requires i < CYCLE_LENGTH
  {
    if i == 0 && shown.total <= 1 then FIRST_AWARD else TRAIL[i]
  }

  // Claimed up to today's slot, and including it once it is paid.
  function Slot(shown: Record, cycleDay: nat, claimedToday: bool, i: nat): CalendarDay
    requires i < CYCLE_LENGTH
  {
    CalendarDay(i + 1, SlotAmount(shown, i), IsMilestone(i + 1),
      i + 1 < cycleDay || (claimedToday && i + 1 == cycleDay), i + 1 == cycleDay)
  }

  lemma TodaySlotPaysAward(shown: Record, claimedToday: bool)
    requires shown.total <= 1 ==> CycleDayFor(shown.current) == 1
    ensures var day := CycleDayFor(shown.current); Slot(shown, day, claimedToday, day - 1).amount == Award(shown)
  {
  }

  // The slots of the cycle that `shown` is in.
  method Calendar(shown: Record, cycleDay: nat, claimedToday: bool) returns (days: seq<CalendarDay>)
    requires 1 <= cycleDay <= CYCLE_LENGTH
    ensures |days| == CYCLE_LENGTH && forall i :: 0 <= i < CYCLE_LENGTH ==> days[i] == Slot(shown, cycleDay, claimedToday, i)
  {
    hide Slot, SlotAmount, IsMilestone, TRAIL;
    days := [];
    var i := 1;
    while i <= CYCLE_LENGTH
      invariant 1 <= i <= CYCLE_LENGTH + 1 && |days| == i - 1
      invariant forall j :: 0 <= j < |days| ==> days[j] == Slot(shown, cycleDay, claimedToday, j)
    {
      var amount := TrailAt(i);
      if i == 1 && shown.total <= 1 { amount := FIRST_AWARD; }
      SlotIs(shown, cycleDay, claimedToday, i - 1);
      days := days + [CalendarDay(i, amount, IsMilestone(i), i < cycleDay || (claimedToday && i == cycleDay), i == cycleDay)];
      i := i + 1;
    }
  }

  function TrailAt(day: nat): nat
    requires 1 <= day <= CYCLE_LENGTH
  {
    TRAIL[day - 1]
  }

  lemma SlotIs(shown: Record, cycleDay: nat, claimedToday: bool, i: nat)
    requires i < CYCLE_LENGTH
    ensures Slot(shown, cycleDay, claimedToday, i) ==
      CalendarDay(i + 1, if i == 0 && shown.total <= 1 then FIRST_AWARD else TrailAt(i + 1), IsMilestone(i + 1),
        i + 1 < cycleDay || (claimedToday && i + 1 == cycleDay), i + 1 == cycleDay)
  {
    hide IsMilestone, TRAIL;
  }

  // Only the first claim ever pays the welcome award, and it is a day one.
  lemma FirstClaimIsDayOne(s: Shared)
    requires SharedOk(s)
    ensures var next := Proposed(s.streak, s.today); next.total <= 1 ==> CycleDayFor(next.current) == 1
  {
    ClaimsCount(s.claimed);
  }

  lemma {:induction false} SoloKeeps(s: Shared, pc: Pc, replies: seq<Reply>)
    requires SharedOk(s) && PcOk(s, pc)
    ensures Kept(s, Solo(s, pc, replies))
    decreases |replies|
  {
    hide DailyReward.Advance, HistoryOk, MoneyOk, PcOk;
    if replies != [] {
      var x := Solo(s, pc, replies[..|replies| - 1]);
      SoloKeeps(s, pc, replies[..|replies| - 1]);
      AdvanceKeeps(x.0, x.1, replies[|replies| - 1]);
    }
  }

  // No step of any claim moves today's promise: before the commit the streak is
  // untouched, and the commit writes exactly the record that was promised.
  lemma PreviewFixed(s: Shared, pc: Pc, reply: Reply)
    requires SharedOk(s) && PcOk(s, pc)
    ensures Preview(DailyReward.Advance(s, pc, reply).0) == Preview(s)
  {
    hide Award, Claims, Owed;
    LastIsToday(s);
  }

  lemma {:induction false} SoloPreview(s: Shared, pc: Pc, replies: seq<Reply>)
    requires SharedOk(s) && PcOk(s, pc)
    ensures Preview(Solo(s, pc, replies).0) == Preview(s)
    decreases |replies|
  {
    hide DailyReward.Advance, HistoryOk, MoneyOk, PcOk, Preview;
    if replies != [] {
      var before := replies[..|replies| - 1];
      SoloPreview(s, pc, before);
      SoloKeeps(s, pc, before);
      var x := Solo(s, pc, before);
      PreviewFixed(x.0, x.1, replies[|replies| - 1]);
    }
  }

  lemma PaidIsPreview(s: Shared, replies: seq<Reply>, result: Result)
    requires SharedOk(s) && Solo(s, Loading(s.today), replies).1 == Done(result) && result.Paid? && result.day == s.today
    ensures result.amount == Preview(s)
    ensures result.day in Solo(s, Loading(s.today), replies).0.credits
    ensures Solo(s, Loading(s.today), replies).0.credits[result.day] == result.amount
  {
    hide Preview, DailyReward.Advance, Solo, Increasing, Claims, Worth;
    var s' := Solo(s, Loading(s.today), replies).0;
    SoloKeeps(s, Loading(s.today), replies);
    SoloPreview(s, Loading(s.today), replies);
    CreditIsPreview(s');
  }

  lemma CreditIsPreview(s: Shared)
    requires SharedOk(s) && s.today in s.credits
    ensures s.credits[s.today] == Preview(s)
  {
    hide Preview, Increasing, Claims, Worth;
    assert Owed(s, s.today, s.credits[s.today]);
    TodayRowIsPreview(s);
    OwedUnique(s, s.today, s.credits[s.today], s.rows[s.today].amount);
  }

  lemma SoloOne(s: Shared, pc: Pc, replies: seq<Reply>)
    requires |replies| >= 1
    ensures Solo(s, pc, replies[..1]) == DailyReward.Advance(s, pc, replies[0])
  {
    hide DailyReward.Advance;
    assert replies[..1][..0] == [];
  }

  lemma SoloTwo(s: Shared, pc: Pc, replies: seq<Reply>)
    requires |replies| >= 2
    ensures var x := DailyReward.Advance(s, pc, replies[0]);
      Solo(s, pc, replies[..2]) == DailyReward.Advance(x.0, x.1, replies[1])
  {
    hide DailyReward.Advance;
    SoloOne(s, pc, replies);
    assert replies[..2][..1] == replies[..1];
  }

  lemma {:induction false} SoloSplit(s: Shared, pc: Pc, a: seq<Reply>, b: seq<Reply>)
    ensures var x := Solo(s, pc, a); Solo(s, pc, a + b) == Solo(x.0, x.1, b)
    decreases |b|
  {
    hide DailyReward.Advance;
    if b == [] {
      assert a + b == a;
    } else {
      var n := |b| - 1;
      SoloSplit(s, pc, a, b[..n]);
      assert (a + b)[..|a + b| - 1] == a + b[..n];
    }
  }

  lemma SoloFirst(s: Shared, pc: Pc, replies: seq<Reply>, n: nat)
    requires 1 <= n <= |replies|
    ensures var x := DailyReward.Advance(s, pc, replies[0]);
      Solo(s, pc, replies[..n]) == Solo(x.0, x.1, replies[1..][..n - 1])
  {
    hide DailyReward.Advance;
    assert replies[..n] == [replies[0]] + replies[1..][..n - 1];
    SoloSplit(s, pc, [replies[0]], replies[1..][..n - 1]);
    assert [replies[0]][..0] == [];
  }
}
