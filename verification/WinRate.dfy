// One player's leaderboard row: counters moved by atomic adds, and the derived
// win-rate score and board key that follow them by optimistic retry.
module WinRate {
  import opened Sums
  import opened Replies

  type ThreadId = nat

  const MIN_HANDS := 100
  const MAX_ATTEMPTS := 5

  // A row may lack its counters: points alone create one too.
  datatype Row = Row(played: Option<int>, won: Option<int>, ranked: bool, score: real, points: int)

  function Number(value: Option<int>): int { if value.Some? then value.value else 0 }

  predicate Eligible(played: int) { played >= MIN_HANDS }

  function Rate(played: int, won: int): real { if played > 0 then won as real / played as real else 0.0 }

  // The row is on the win-rate board exactly when it has enough hands, and then
  // its score is the rate of its own counters.
  predicate InSync(row: Row) {
    && (row.ranked <==> Eligible(Number(row.played)))
    && (row.ranked ==> row.score == Rate(Number(row.played), Number(row.won)))
  }

  // A failed call remembers which counters it was answering for, if any.
  datatype Result = Ok | Contended | Failed(left: Option<(int, int)>)

  datatype Pc =
    | Adding(played: int, won: int)
    | AddingPoints(points: int)
    | Writing(seenPlayed: int, seenWon: int, attempt: nat)
    | Reloading(attempt: nat)
    | Done(result: Result)

  function Add(row: Row, played: int, won: int): Row {
    row.(played := Some(Number(row.played) + played), won := Some(Number(row.won) + won))
  }

  function SyncWrite(row: Row, played: int, won: int): Row {
    if Eligible(played) then row.(ranked := true, score := Rate(played, won)) else row.(ranked := false)
  }

  // The head of the retry loop: nothing to write for a row below the floor and
  // off the board.
  function Enter(row: Row, attempt: nat): Pc {
    var played, won := Number(row.played), Number(row.won);
    if attempt >= MAX_ATTEMPTS then Done(Contended)
    else if !Eligible(played) && !row.ranked then Done(Ok)
    else Writing(played, won, attempt)
  }

  function OnAdding(row: Row, played: int, won: int, reply: Reply): (Row, Pc) {
    var after := Add(row, played, won);
    if reply == Refused then (row, Done(Failed(None)))
    else (after, if reply == Landed then Enter(after, 0) else Done(Failed(Some((after.played.value, after.won.value)))))
  }

  function OnAddingPoints(row: Row, points: int, reply: Reply): (Row, Pc) {
    var after := row.(points := row.points + points);
    if reply == Refused then (row, Done(Failed(None)))
    else if reply == Lost then (after, Done(Failed(None)))
    else (after, if row.ranked == Eligible(Number(row.played)) then Done(Ok) else Enter(after, 0))
  }

  // The write is conditional on the very counters it was computed from.
  function OnWriting(row: Row, played: int, won: int, attempt: nat, reply: Reply): (Row, Pc) {
    if reply == Refused then (row, Done(Failed(Some((played, won)))))
    else if row.played != Some(played) || row.won != Some(won) then (row, Reloading(attempt + 1))
    else (SyncWrite(row, played, won), Done(if reply == Landed then Ok else Failed(Some((played, won)))))
  }

  function Advance(row: Row, pc: Pc, reply: Reply): (Row, Pc) {
    match pc
    case Adding(played, won) => OnAdding(row, played, won, reply)
    case AddingPoints(points) => OnAddingPoints(row, points, reply)
    case Writing(played, won, attempt) => OnWriting(row, played, won, attempt, reply)
    case Reloading(attempt) => (row, if reply == Landed then Enter(row, attempt) else Done(Failed(None)))
    case Done(_) => (row, pc)
  }

  // A call succeeds only on an answer it got, a failed read ends it, and contention is
  // reported only after all attempts.
  lemma AnswersAreEarned(row: Row, pc: Pc, reply: Reply)
    requires !pc.Done?
    ensures var next := Advance(row, pc, reply).1;
      && (reply != Landed ==> next != Done(Ok))
      && (reply != Landed && pc.Reloading? ==> next == Done(Failed(None)))
      && (next == Done(Contended) ==> pc.Reloading? && pc.attempt >= MAX_ATTEMPTS)
  {
  }

  // `added` and `scored` are history: the counter increments and the points whose
  // add was applied, in order.
  datatype World = World(row: Row, added: seq<(int, int)>, scored: seq<int>, threads: map<ThreadId, Pc>)

  datatype Action =
    | IncrementStats(t: ThreadId, played: int, won: int)
    | IncrementAchievementPoints(t: ThreadId, points: int)
    | Go(t: ThreadId, reply: Reply)
    | Crash(t: ThreadId)

  // What a call that stops here leaves undone.
  function Abandoned(pc: Pc): Pc {
    match pc
    case Done(_) => pc
    case Writing(played, won, _) => Done(Failed(Some((played, won))))
    case _ => Done(Failed(None))
  }

  function Step(w: World, a: Action): World {
    match a
    case IncrementStats(t, played, won) =>
      if t in w.threads then w else w.(threads := w.threads[t := Adding(played, won)])
    case IncrementAchievementPoints(t, points) =>
      if t in w.threads then w else w.(threads := w.threads[t := AddingPoints(points)])
    case Go(t, reply) =>
      if t !in w.threads then w
      else
        var pc := w.threads[t];
        var x := Advance(w.row, pc, reply);
        World(x.0,
              if pc.Adding? && reply != Refused then w.added + [(pc.played, pc.won)] else w.added,
              if pc.AddingPoints? && reply != Refused then w.scored + [pc.points] else w.scored,
              w.threads[t := x.1])
    case Crash(t) => if t in w.threads then w.(threads := w.threads[t := Abandoned(w.threads[t])]) else w
  }

  function Run(w: World, actions: seq<Action>): World
    decreases |actions|
  {
    if actions == [] then w else Step(Run(w, actions[..|actions| - 1]), actions[|actions| - 1])
  }

  function Opened(row: Row): World { World(row, [], [], map[]) }

  // ---------- What the counters are ----------

  function SumOf(s: seq<int>): int { if s == [] then 0 else SumOf(s[..|s| - 1]) + s[|s| - 1] }

  function PlayedOf(added: seq<(int, int)>): seq<int> { seq(|added|, n requires 0 <= n < |added| => added[n].0) }

  function WonOf(added: seq<(int, int)>): seq<int> { seq(|added|, n requires 0 <= n < |added| => added[n].1) }

  // The row's counters are what it started with and everything added since.
  ghost predicate Counts(start: Row, w: World) {
    && Number(w.row.played) == Number(start.played) + SumOf(PlayedOf(w.added))
    && Number(w.row.won) == Number(start.won) + SumOf(WonOf(w.added))
    && w.row.points == start.points + SumOf(w.scored)
  }

  lemma SumsNext(added: seq<(int, int)>, played: int, won: int)
    ensures SumOf(PlayedOf(added + [(played, won)])) == SumOf(PlayedOf(added)) + played
    ensures SumOf(WonOf(added + [(played, won)])) == SumOf(WonOf(added)) + won
  {
    SumNext(PlayedOf(added), played);
    SumNext(WonOf(added), won);
    assert PlayedOf(added + [(played, won)]) == PlayedOf(added) + [played];
    assert WonOf(added + [(played, won)]) == WonOf(added) + [won];
  }

  lemma SumNext(s: seq<int>, x: int)
    ensures SumOf(s + [x]) == SumOf(s) + x
  {
    assert (s + [x])[..|s|] == s;
  }

  lemma CountsStep(start: Row, w: World, a: Action)
    requires Counts(start, w)
    ensures Counts(start, Step(w, a))
  {
    hide SumOf, PlayedOf, WonOf, Rate;
    if a.Go? && a.t in w.threads && a.reply != Refused {
      var pc := w.threads[a.t];
      if pc.Adding? { SumsNext(w.added, pc.played, pc.won); }
      if pc.AddingPoints? { SumNext(w.scored, pc.points); }
    }
  }

  // In every run: hands played, hands won and points are the starting values plus
  // the sums over exactly the increments whose add was applied.
  lemma {:induction false} CountersAreSums(row: Row, actions: seq<Action>)
    ensures Counts(row, Run(Opened(row), actions))
    decreases |actions|
  {
    hide Step, Counts;
    if actions == [] {
      NothingCounted(row);
    } else {
      CountersAreSums(row, actions[..|actions| - 1]);
      CountsStep(row, Run(Opened(row), actions[..|actions| - 1]), actions[|actions| - 1]);
    }
  }

  lemma NothingCounted(row: Row)
    ensures Counts(row, Opened(row))
  {
  }

  // ---------- Safety ----------

  // The call answers for the row's current counters.
  ghost predicate Responsible(row: Row, pc: Pc) {
    match pc
    case Writing(played, won, _) => row.played == Some(played) && row.won == Some(won)
    case Done(Failed(Some(left))) => row.played == Some(left.0) && row.won == Some(left.1)
    case _ => false
  }

  ghost predicate Attended(w: World) {
    InSync(w.row) || exists t :: t in w.threads && Responsible(w.row, w.threads[t])
  }

  ghost predicate Inv(w: World) {
    w.added != [] ==> w.row.played.Some? && w.row.won.Some? && Attended(w)
  }

  lemma AddKeeps(w: World, t: ThreadId, reply: Reply)
    requires Inv(w) && t in w.threads && w.threads[t].Adding?
    ensures Inv(Step(w, Go(t, reply)))
  {
    hide InSync;
    var w' := Step(w, Go(t, reply));
    if reply != Refused {
      assert InSync(w'.row) || Responsible(w'.row, w'.threads[t]) by { AddResponsible(w.row, w.threads[t], reply); }
    } else if w.added != [] && !InSync(w.row) {
      var u :| u in w.threads && Responsible(w.row, w.threads[u]);
      assert Responsible(w'.row, w'.threads[u]);
    }
  }

  lemma AddResponsible(row: Row, pc: Pc, reply: Reply)
    requires pc.Adding? && reply != Refused
    ensures var x := Advance(row, pc, reply); InSync(x.0) || Responsible(x.0, x.1)
  {
  }

  // Only the write with the current counters pinned may take the row's last
  // guardian away, and it leaves the row in step.
  lemma WriteKeeps(w: World, t: ThreadId, reply: Reply)
    requires Inv(w) && t in w.threads && w.threads[t].Writing?
    ensures Inv(Step(w, Go(t, reply)))
  {
    var w' := Step(w, Go(t, reply));
    if w.added != [] && !InSync(w'.row) {
      var u :| u in w.threads && Responsible(w.row, w.threads[u]);
      assert Responsible(w'.row, w'.threads[u]);
    }
  }

  lemma OtherKeeps(w: World, t: ThreadId, reply: Reply)
    requires Inv(w) && t in w.threads && !w.threads[t].Adding? && !w.threads[t].Writing?
    ensures Inv(Step(w, Go(t, reply)))
  {
    var w' := Step(w, Go(t, reply));
    if w.added != [] && !InSync(w.row) {
      var u :| u in w.threads && Responsible(w.row, w.threads[u]);
      assert u in w'.threads && Responsible(w'.row, w'.threads[u]);
    }
  }

  lemma StepKeeps(w: World, a: Action)
    requires Inv(w)
    ensures Inv(Step(w, a))
  {
    hide Advance, InSync;
    if a.Go? && a.t in w.threads {
      var pc := w.threads[a.t];
      if pc.Adding? { AddKeeps(w, a.t, a.reply); }
      else if pc.Writing? { WriteKeeps(w, a.t, a.reply); }
      else { OtherKeeps(w, a.t, a.reply); }
    } else if w.added != [] && !InSync(w.row) {
      var u :| u in w.threads && Responsible(w.row, w.threads[u]);
      assert Responsible(w.row, Step(w, a).threads[u]);
    }
  }

  lemma {:induction false} RunKeeps(w: World, actions: seq<Action>)
    requires Inv(w)
    ensures Inv(Run(w, actions))
    decreases |actions|
  {
    hide Step, Inv;
    if actions != [] {
      RunKeeps(w, actions[..|actions| - 1]);
      StepKeeps(Run(w, actions[..|actions| - 1]), actions[|actions| - 1]);
    }
  }

  ghost predicate AllReturned(w: World) { forall t :: t in w.threads ==> w.threads[t].Done? }

  // From any row at all, even one already out of step: once every call has
  // returned and counters moved at least once, the row is in step, or some call
  // that failed outright is the one that left the row's final counters.
  lemma BoardFollowsCounters(row: Row, actions: seq<Action>)
    ensures var w := Run(Opened(row), actions);
      w.added != [] && AllReturned(w) ==>
        InSync(w.row) || exists t :: t in w.threads && w.threads[t].result.Failed? && Responsible(w.row, w.threads[t])
  {
    hide Run;
    RunKeeps(Opened(row), actions);
  }

  // No call failed, though some may have given up contended: the row is on the
  // board exactly from a hundred hands on, with the rate of its final counters.
  lemma NoOlderRateSurvives(row: Row, actions: seq<Action>)
    ensures var w := Run(Opened(row), actions);
      w.added != [] && (forall t :: t in w.threads ==> w.threads[t] == Done(Ok) || w.threads[t] == Done(Contended)) ==>
        && w.row.played.Some? && w.row.won.Some?
        && (w.row.ranked <==> w.row.played.value >= 100)
        && (w.row.ranked ==> w.row.score == w.row.won.value as real / w.row.played.value as real)
  {
    hide Run;
    RunKeeps(Opened(row), actions);
  }

  // And that rate is the true one of the hands counted.
  lemma {:induction false} ScoreIsTrueRate(row: Row, actions: seq<Action>)
    ensures var w := Run(Opened(row), actions);
      var played := Number(row.played) + SumOf(PlayedOf(w.added));
      var won := Number(row.won) + SumOf(WonOf(w.added));
      w.added != [] && (forall t :: t in w.threads ==> w.threads[t] == Done(Ok) || w.threads[t] == Done(Contended)) ==>
        && (w.row.ranked <==> played >= 100)
        && (w.row.ranked ==> w.row.score == won as real / played as real)
  {
    hide Run, SumOf, PlayedOf, WonOf;
    NoOlderRateSurvives(row, actions);
    CountersAreSums(row, actions);
  }

  // ---------- One call among others ----------

  // What the store does at one access: other callers' writes so far, then the answer.
  datatype Access = Access(meanwhile: Option<Row>, reply: Reply)

  function Seen(row: Row, access: Access): Row {
    if access.meanwhile.Some? then access.meanwhile.value else row
  }

  function Among(row: Row, pc: Pc, accesses: seq<Access>): (Row, Pc)
    decreases |accesses|
  {
    if accesses == [] then (row, pc)
    else
      var x := Among(row, pc, accesses[..|accesses| - 1]);
      var last := accesses[|accesses| - 1];
      Advance(Seen(x.0, last), x.1, last.reply)
  }

  lemma AmongLast(row: Row, pc: Pc, accesses: seq<Access>, n: nat)
    requires n < |accesses|
    ensures var x := Among(row, pc, accesses[..n]);
      Among(row, pc, accesses[..n + 1]) == Advance(Seen(x.0, accesses[n]), x.1, accesses[n].reply)
  {
    hide Advance;
    assert accesses[..n + 1][..n] == accesses[..n];
  }
}

// The store over one mutable row.
module WinRateStore {
  import opened Sums
  import opened Replies
  import opened WinRate

  class Store {
    var row: Row

    // A fresh read or write sees whatever others have left.
    method Meet(access: Access)
      modifies this
      ensures row == Seen(old(row), access)
    {
      if access.meanwhile.Some? { row := access.meanwhile.value; }
    }

    // Retries until the write lands on the counters it was computed from. An
    // answer of Ok means the row was in step when it was given; giving up means
    // the counters had moved before each of the five writes.
    method SyncWinRateRow(played: int, won: int, ranked: bool, accesses: seq<Access>) returns (result: Result, n: nat)
      requires |accesses| >= 2 * MAX_ATTEMPTS
      requires Number(row.played) == played && Number(row.won) == won && row.ranked == ranked
      modifies this
      ensures n <= 2 * MAX_ATTEMPTS
      ensures (row, Done(result)) == Among(old(row), Enter(old(row), 0), accesses[..n])
      ensures result == Ok ==> InSync(row)
      ensures result == Contended ==> n == 2 * MAX_ATTEMPTS
      ensures result == Ok && n > 0 ==> accesses[n - 1].reply == Landed
      ensures Alone(accesses, n) ==> SameCounters(old(row), row)
      ensures Alone(accesses, n) && old(row).played.Some? && old(row).won.Some? && accesses[0].reply == Landed ==> result == Ok
    {
      hide Among, Alone, InSync;
      ghost var row0 := row;
      var playedNow, wonNow, rankedNow := played, won, ranked;
      var attempt := 0;
      n := 0;
      AmongNone(row0, Enter(row0, 0));
      assert accesses[..0] == [];
      while attempt < MAX_ATTEMPTS
        invariant attempt <= MAX_ATTEMPTS && n == 2 * attempt
        invariant playedNow == Number(row.played) && wonNow == Number(row.won) && rankedNow == row.ranked
        invariant (row, Enter(row, attempt)) == Among(row0, Enter(row0, 0), accesses[..n])
        invariant Alone(accesses, n) ==> row == row0
        invariant n > 0 ==> accesses[n - 1].reply == Landed
        invariant Alone(accesses, n) && row0.played.Some? && row0.won.Some? && accesses[0].reply == Landed ==> n == 0
      {
        var eligible := playedNow >= MIN_HANDS;
        if !eligible && !rankedNow {
          OffIsInSync(row);
          return Ok, n;
        }
        AmongLast(row0, Enter(row0, 0), accesses, n);
        AloneBefore(accesses, n);
        AloneBefore(accesses, n + 1);
        Meet(accesses[n]);
        if accesses[n].reply == Refused { return Failed(Some((playedNow, wonNow))), n + 1; }
        var met := WriteRate(playedNow, wonNow);
        if met { return if accesses[n].reply == Landed then Ok else Failed(Some((playedNow, wonNow))), n + 1; }
        AmongLast(row0, Enter(row0, 0), accesses, n + 1);
        Meet(accesses[n + 1]);
        if accesses[n + 1].reply != Landed { return Failed(None), n + 2; }
        playedNow, wonNow, rankedNow := Number(row.played), Number(row.won), row.ranked;
        attempt, n := attempt + 1, n + 2;
      }
      result := Contended;
    }

    // The write, on condition that the counters are still those it was computed from.
    method WriteRate(played: int, won: int) returns (met: bool)
      modifies this
      ensures met <==> old(row).played == Some(played) && old(row).won == Some(won)
      ensures row == (if met then SyncWrite(old(row), played, won) else old(row))
      ensures met ==> InSync(row)
      ensures SameCounters(old(row), row)
    {
      met := row.played == Some(played) && row.won == Some(won);
      if !met { return; }
      if played >= MIN_HANDS {
        row := row.(ranked := true, score := Rate(played, won));
      } else {
        row := row.(ranked := false);
      }
    }

    method IncrementStats(played: int, won: int, accesses: seq<Access>) returns (result: Result, n: nat, ghost added: Row)
      requires |accesses| >= 2 * MAX_ATTEMPTS + 1
      modifies this
      ensures 1 <= n <= |accesses|
      ensures (row, Done(result)) == Among(old(row), Adding(played, won), accesses[..n])
      ensures result == Ok ==> InSync(row) && accesses[n - 1].reply == Landed
      ensures var met := Seen(old(row), accesses[0]);
        && added == (if accesses[0].reply == Refused then met
                     else met.(played := Some(Number(met.played) + played), won := Some(Number(met.won) + won)))
        && (Alone(accesses[1..], n - 1) ==> SameCounters(added, row))
      ensures Alone(accesses[1..], n - 1) && accesses[0].reply == Landed && accesses[1].reply == Landed ==> result == Ok
    {
      hide Among;
      AmongOne(row, Adding(played, won), accesses);
      ghost var row0 := row;
      Meet(accesses[0]);
      added := row;
      if accesses[0].reply == Refused { return Failed(None), 1, row; }
      row := row.(played := Some(Number(row.played) + played), won := Some(Number(row.won) + won));
      added := row;
      if accesses[0].reply == Lost { return Failed(Some((row.played.value, row.won.value))), 1, row; }
      result, n := SyncWinRateRow(row.played.value, row.won.value, row.ranked, accesses[1..]);
      AmongFirst(row0, Adding(played, won), accesses, n + 1);
      n := n + 1;
    }

    // Points leave the counters alone, so only a row on the wrong side of the
    // floor is worth a second write.
    method IncrementAchievementPoints(points: int, accesses: seq<Access>) returns (result: Result, n: nat, ghost added: Row)
      requires |accesses| >= 2 * MAX_ATTEMPTS + 1
      modifies this
      ensures 1 <= n <= |accesses|
      ensures (row, Done(result)) == Among(old(row), AddingPoints(points), accesses[..n])
      ensures result == Ok && n > 1 ==> InSync(row)
      ensures result == Ok ==> (row.ranked <==> Eligible(Number(row.played))) && accesses[n - 1].reply == Landed
      ensures var met := Seen(old(row), accesses[0]);
        && added == (if accesses[0].reply == Refused then met else met.(points := met.points + points))
        && (Alone(accesses[1..], n - 1) ==> SameCounters(added, row))
      ensures n == 1 ==> row == Seen(old(row), accesses[0]).(points := row.points)
    {
      hide Among;
      AmongOne(row, AddingPoints(points), accesses);
      ghost var row0 := row;
      Meet(accesses[0]);
      added := row;
      if accesses[0].reply == Refused { return Failed(None), 1, row; }
      row := row.(points := row.points + points);
      added := row;
      if accesses[0].reply == Lost { return Failed(None), 1, row; }
      if row.ranked == Eligible(Number(row.played)) { return Ok, 1, row; }
      result, n := SyncWinRateRow(Number(row.played), Number(row.won), row.ranked, accesses[1..]);
      AmongFirst(row0, AddingPoints(points), accesses, n + 1);
      n := n + 1;
    }
  }

  // Nobody else writes during these accesses.
  ghost predicate Alone(accesses: seq<Access>, n: nat)
    requires n <= |accesses|
  {
    forall k :: 0 <= k < n ==> accesses[k].meanwhile.None?
  }

  lemma AloneBefore(accesses: seq<Access>, n: nat)
    requires n < |accesses|
    ensures Alone(accesses, n + 1) ==> Alone(accesses, n) && accesses[n].meanwhile.None?
  {
  }

  predicate SameCounters(a: Row, b: Row) { a.played == b.played && a.won == b.won && a.points == b.points }

  lemma OffIsInSync(row: Row)
    requires !Eligible(Number(row.played)) && !row.ranked
    ensures InSync(row)
  {
  }

  lemma AmongNone(row: Row, pc: Pc)
    ensures Among(row, pc, []) == (row, pc)
  {
  }

  lemma AmongOne(row: Row, pc: Pc, accesses: seq<Access>)
    requires |accesses| >= 1
    ensures Among(row, pc, accesses[..1]) == WinRate.Advance(Seen(row, accesses[0]), pc, accesses[0].reply)
  {
    hide WinRate.Advance;
    assert accesses[..1][..0] == [];
  }

  lemma {:induction false} AmongSplit(row: Row, pc: Pc, a: seq<Access>, b: seq<Access>)
    ensures var x := Among(row, pc, a); Among(row, pc, a + b) == Among(x.0, x.1, b)
    decreases |b|
  {
    hide WinRate.Advance;
    if b == [] {
      assert a + b == a;
    } else {
      var n := |b| - 1;
      AmongSplit(row, pc, a, b[..n]);
      assert (a + b)[..|a + b| - 1] == a + b[..n];
    }
  }

  lemma AmongFirst(row: Row, pc: Pc, accesses: seq<Access>, n: nat)
    requires 1 <= n <= |accesses|
    ensures var x := WinRate.Advance(Seen(row, accesses[0]), pc, accesses[0].reply);
      Among(row, pc, accesses[..n]) == Among(x.0, x.1, accesses[1..][..n - 1])
  {
    hide WinRate.Advance;
    assert accesses[..n] == accesses[..1] + accesses[1..][..n - 1];
    AmongSplit(row, pc, accesses[..1], accesses[1..][..n - 1]);
    AmongOne(row, pc, accesses);
  }
}
