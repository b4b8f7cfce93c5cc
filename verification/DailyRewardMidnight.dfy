// When the streak row counts every claim, exactly: claims in flight across
// midnight can erase each other.
module DailyRewardMidnight {
  import opened Sums
  import opened Replies
  import opened Streak
  import opened DailyReward

  // The streak row has counted every committed claim, each once.
  ghost predicate CountsAll(s: Shared) { s.streak == Claims(s.claimed) }

  // The record is the streak row as it was after some of the claims.
  ghost predicate EarlierRow(s: Shared, read: Record) {
    exists m :: 0 <= m <= |s.claimed| && read == Claims(s.claimed[..m])
  }

  ghost predicate Traced(w: World) {
    && CountsAll(w.shared)
    && forall t :: t in w.threads && w.threads[t].Claiming? ==> EarlierRow(w.shared, w.threads[t].read)
  }

  predicate Commits(w: World, a: Action) {
    && a.Go? && a.t in w.threads && w.threads[a.t].Claiming?
    && a.reply != Refused && w.threads[a.t].day !in w.shared.rows
  }

  // What the claim read is still the stored row, and that row has not counted the
  // day already (which takes a claim older than its day row's two days of life).
  predicate ReadIsCurrent(w: World, a: Action)
    requires Commits(w, a)
  {
    w.threads[a.t].read == w.shared.streak && w.shared.streak.lastClaim != Some(w.threads[a.t].day)
  }

  // A commit leaves every claim counted if and only if what it read is current;
  // otherwise the streak row falls behind the claims.
  lemma CommitCountsIff(w: World, a: Action)
    requires Traced(w) && Commits(w, a)
    ensures CountsAll(Step(w, a).shared) <==> ReadIsCurrent(w, a)
    ensures var s' := Step(w, a).shared; s'.streak.total == |s'.claimed| <==> ReadIsCurrent(w, a)
    ensures var s' := Step(w, a).shared; !ReadIsCurrent(w, a) ==> s'.streak.total < |s'.claimed|
  {
    hide Claims, Streak.Advance;
    var s, day, read := w.shared, w.threads[a.t].day, w.threads[a.t].read;
    var s' := Step(w, a).shared;
    assert s'.claimed == s.claimed + [day];
    ClaimsLast(s.claimed, day);
    ClaimsCount(s.claimed);
    ClaimsCount(s'.claimed);
    ProposedTotal(read, day);
    var m :| 0 <= m <= |s.claimed| && read == Claims(s.claimed[..m]);
    ClaimsCount(s.claimed[..m]);
    if m == |s.claimed| { assert s.claimed[..m] == s.claimed; }
  }

  lemma ProposedTotal(read: Record, day: int)
    ensures Proposed(read, day).total == read.total + (if read.lastClaim == Some(day) then 0 else 1)
  {
  }

  lemma EarlierStays(s: Shared, s': Shared, read: Record)
    requires EarlierRow(s, read) && s.claimed <= s'.claimed
    ensures EarlierRow(s', read)
  {
    hide Claims;
    var m :| 0 <= m <= |s.claimed| && read == Claims(s.claimed[..m]);
    assert s'.claimed[..m] == s.claimed[..m];
  }

  lemma TracedStep(w: World, a: Action)
    requires Traced(w) && (Commits(w, a) ==> ReadIsCurrent(w, a))
    ensures Traced(Step(w, a))
  {
    hide Claims, Award, EarlierRow;
    var w' := Step(w, a);
    if Commits(w, a) { CommitCountsIff(w, a); }
    assert w.shared.claimed <= w'.shared.claimed && CountsAll(w'.shared);
    forall t | t in w'.threads && w'.threads[t].Claiming?
      ensures EarlierRow(w'.shared, w'.threads[t].read)
    {
      if t in w.threads && w.threads[t] == w'.threads[t] {
        EarlierStays(w.shared, w'.shared, w.threads[t].read);
      } else {
        NowIsEarlier(w'.shared);
      }
    }
  }

  lemma NowIsEarlier(s: Shared)
    requires CountsAll(s)
    ensures EarlierRow(s, s.streak)
  {
    assert s.claimed[..|s.claimed|] == s.claimed;
  }

  // At every moment of the run.
  ghost predicate AlwaysCounts(w: World, actions: seq<Action>)
    decreases |actions|
  {
    CountsAll(Run(w, actions).shared) && (actions != [] ==> AlwaysCounts(w, actions[..|actions| - 1]))
  }

  ghost predicate ReadsCurrent(w: World, actions: seq<Action>)
    decreases |actions|
  {
    actions == [] ||
    var before, last := actions[..|actions| - 1], actions[|actions| - 1];
    ReadsCurrent(w, before) && (Commits(Run(w, before), last) ==> ReadIsCurrent(Run(w, before), last))
  }

  lemma {:induction false} TracedRun(w: World, actions: seq<Action>)
    requires Traced(w)
    ensures AlwaysCounts(w, actions) <==> ReadsCurrent(w, actions)
    ensures ReadsCurrent(w, actions) ==> Traced(Run(w, actions))
    decreases |actions|
  {
    hide Step, Commits, ReadIsCurrent, CountsAll;
    if actions == [] {
      TracedCounts(w);
    } else {
      var before, last := actions[..|actions| - 1], actions[|actions| - 1];
      TracedRun(w, before);
      if ReadsCurrent(w, before) {
        if Commits(Run(w, before), last) { CommitCountsIff(Run(w, before), last); }
        if ReadsCurrent(w, actions) {
          TracedStep(Run(w, before), last);
          TracedCounts(Run(w, actions));
        }
      }
    }
  }

  lemma TracedCounts(w: World)
    requires Traced(w)
    ensures CountsAll(w.shared)
  {
  }

  // Every run, midnights anywhere: the streak row counts every claim at every
  // moment if and only if every claim that commits has read the current row.
  lemma EveryClaimCountedIff(today: int, actions: seq<Action>)
    ensures AlwaysCounts(Fresh(today), actions) <==> ReadsCurrent(Fresh(today), actions)
  {
    hide Run, AlwaysCounts, ReadsCurrent;
    TracedRun(Fresh(today), actions);
  }

  // No claim in flight at midnight is enough.
  lemma {:induction false} QuietMidnightsSuffice(today: int, actions: seq<Action>)
    requires DaysEndQuiet(Fresh(today), actions)
    ensures AlwaysCounts(Fresh(today), actions)
    decreases |actions|
  {
    hide Step, Quiet;
    RunKeeps(Fresh(today), actions);
    if actions != [] { QuietMidnightsSuffice(today, actions[..|actions| - 1]); }
  }

  // ---------- And it is needed ----------

  lemma RunLast(w: World, actions: seq<Action>, a: Action)
    ensures Run(w, actions + [a]) == Step(Run(w, actions), a)
    ensures Run(w, []) == w
  {
    hide Step;
    assert (actions + [a])[..|actions|] == actions;
  }

  // A claim that has read the row but not committed is overtaken by midnight;
  // tomorrow's claim reads the same row.
  function Midnight(w: World, u: ThreadId): seq<Action> {
    [NextDay(w.shared.today + 1), Spin(u), Go(u, Landed)]
  }

  ghost predicate AtMidnight(w: World, t: ThreadId, u: ThreadId) {
    && Inv(w) && t in w.threads && u !in w.threads
    && w.threads[t].Claiming? && w.shared.today !in w.shared.rows
  }

  lemma BothHaveRead(w: World, t: ThreadId, u: ThreadId)
    requires AtMidnight(w, t, u)
    ensures var s := w.shared; var d := s.today;
      Run(w, Midnight(w, u)) ==
        World(s.(today := d + 1), w.threads[u := Claiming(d + 1, s.streak)])
    ensures w.threads[t] == Claiming(w.shared.today, w.shared.streak)
    ensures w.shared.today + 1 !in w.shared.rows && w.shared.streak.total == |w.shared.claimed|
    ensures w.shared.streak.lastClaim != Some(w.shared.today) && w.shared.streak.lastClaim != Some(w.shared.today + 1)
  {
    var s := w.shared;
    assert PcOk(s, w.threads[t]);
    LastIsToday(s);
    CreditsArePast(s);
    ClaimsCount(s.claimed);
    hide Run, Inv;
    MidnightRuns(w, u);
  }

  lemma MidnightRuns(w: World, u: ThreadId)
    requires u !in w.threads
    ensures var s := w.shared; var d := s.today;
      Run(w, Midnight(w, u)) == World(s.(today := d + 1), w.threads[u := Claiming(d + 1, s.streak)])
  {
    hide Run;
    var s, d := w.shared, w.shared.today;
    var w1 := Step(w, NextDay(d + 1));
    var w2 := Step(w1, Spin(u));
    RunLast(w, [], NextDay(d + 1));
    RunLast(w, [] + [NextDay(d + 1)], Spin(u));
    RunLast(w, [] + [NextDay(d + 1)] + [Spin(u)], Go(u, Landed));
    assert [] + [NextDay(d + 1)] + [Spin(u)] + [Go(u, Landed)] == Midnight(w, u);
    assert Step(w2, Go(u, Landed)).threads == w.threads[u := Claiming(d + 1, s.streak)];
  }

  // Two commits of one reading: whichever comes second erases the first.
  lemma SecondCommitErases(w: World, t: ThreadId, u: ThreadId, d: int, e: int)
    requires t != u && d != e && t in w.threads && u in w.threads
    requires w.threads[t] == Claiming(d, w.shared.streak) && w.threads[u] == Claiming(e, w.shared.streak)
    requires d !in w.shared.rows && e !in w.shared.rows
    requires w.shared.streak.lastClaim != Some(d) && w.shared.streak.lastClaim != Some(e)
    ensures var s, s' := w.shared, Step(Step(w, Go(t, Landed)), Go(u, Landed)).shared;
      && s'.claimed == s.claimed + [d] + [e]
      && s'.streak == Streak.Advance(s.streak, e) && s'.streak.total == s.streak.total + 1
  {
    hide Award;
    var w1 := Step(w, Go(t, Landed));
    assert w1.threads[u] == Claiming(e, w.shared.streak) && e !in w1.shared.rows;
  }

  // From every consistent state with a claim of today about to commit when
  // midnight comes, both orders are runs, and in both one claim is not counted:
  // tomorrow's if today's commits last, today's if it commits first.
  lemma StaleClaimLosesADay(w: World, t: ThreadId, u: ThreadId)
    requires AtMidnight(w, t, u)
    ensures var s := w.shared;
      var late := Run(w, Midnight(w, u) + [Go(u, Landed), Go(t, Landed)]).shared;
      && late.claimed == s.claimed + [s.today + 1] + [s.today] && late.streak.total == |late.claimed| - 1
      && late.streak == Streak.Advance(s.streak, s.today)
    ensures var s := w.shared;
      var early := Run(w, Midnight(w, u) + [Go(t, Landed), Go(u, Landed)]).shared;
      && early.claimed == s.claimed + [s.today] + [s.today + 1] && early.streak.total == |early.claimed| - 1
      && early.streak == Streak.Advance(s.streak, s.today + 1)
  {
    hide Run, Step, Streak.Advance, Inv;
    var d, night := w.shared.today, Midnight(w, u);
    BothHaveRead(w, t, u);
    var w3 := Run(w, night);
    RunTwo(w, night, Go(u, Landed), Go(t, Landed));
    RunTwo(w, night, Go(t, Landed), Go(u, Landed));
    SecondCommitErases(w3, u, t, d + 1, d);
    SecondCommitErases(w3, t, u, d, d + 1);
  }

  lemma RunTwo(w: World, actions: seq<Action>, a: Action, b: Action)
    ensures Run(w, actions + [a, b]) == Step(Step(Run(w, actions), a), b)
  {
    hide Step, Run;
    RunLast(w, actions, a);
    RunLast(w, actions + [a], b);
    assert actions + [a] + [b] == actions + [a, b];
  }
}
