// What the daily reward pays, in every run: whatever midnight does to the count of
// a streak, it never touches the money.
module DailyRewardMoney {
  import opened Sums
  import opened Replies
  import opened Streak
  import opened DailyReward
  import opened DailyRewardMidnight

  predicate LiveOn(pc: Pc, day: int) { !pc.Done? && pc.day == day }

  // Nobody can claim this day any more.
  ghost predicate Over(w: World, day: int) {
    day < w.shared.today && forall t :: t in w.threads ==> !LiveOn(w.threads[t], day)
  }

  // A claim does not outlive the two days that its day row lives.
  ghost predicate RowsOutliveClaims(w: World, actions: seq<Action>)
    decreases |actions|
  {
    actions == [] ||
    var before, last := actions[..|actions| - 1], actions[|actions| - 1];
    && RowsOutliveClaims(w, before)
    && (last.Expire? ==> forall t :: t in Run(w, before).threads ==> !LiveOn(Run(w, before).threads[t], last.day))
  }

  // A claim of this day committed, and its award was this amount.
  ghost predicate CommittedFor(w: World, actions: seq<Action>, day: int, amount: nat)
    decreases |actions|
  {
    actions != [] &&
    var before, last := actions[..|actions| - 1], actions[|actions| - 1];
    CommittedFor(w, before, day, amount) || CommitsFor(Run(w, before), last, day, amount)
  }

  ghost predicate CommitsFor(w: World, a: Action, day: int, amount: nat) {
    Commits(w, a) && w.threads[a.t].day == day && Award(Proposed(w.threads[a.t].read, day)) == amount
  }

  // ---------- The invariant ----------

  ghost predicate RowsAndCredits(s: Shared) {
    && (forall d :: d in s.rows && d in s.credits ==> s.credits[d] == s.rows[d].amount)
    && (forall d :: d in s.rows && s.rows[d].completed ==> d in s.credits)
    && (forall d :: d in s.rows || d in s.credits ==> d in s.claimed)
    && (forall d :: d in s.claimed ==> d <= s.today)
    && (forall i, j :: 0 <= i < j < |s.claimed| ==> s.claimed[i] != s.claimed[j])
  }

  ghost predicate PaysRight(s: Shared, pc: Pc) {
    match pc
    case Loading(day) => day <= s.today
    case Claiming(day, _) => day <= s.today
    case ReadingDay(day) => day <= s.today && day in s.rows
    case Crediting(day, amount) => day <= s.today && day in s.rows && amount == s.rows[day].amount
    case Completing(day, amount) => day <= s.today && day in s.rows && day in s.credits && s.credits[day] == amount
    case Done(Paid(day, amount)) => day in s.credits && s.credits[day] == amount
    case Done(AlreadyPaid(day)) => day in s.credits
    case Done(Error) => true
  }

  ghost predicate Sound(w: World) {
    && RowsAndCredits(w.shared)
    && (forall d :: d in w.shared.claimed && d !in w.shared.rows ==> Over(w, d))
    && forall t :: t in w.threads ==> PaysRight(w.shared, w.threads[t])
  }

  // Rows stay with their amounts, credits stay, and the day does not move.
  ghost predicate Stays(s: Shared, s': Shared) {
    && s'.today == s.today && s.claimed <= s'.claimed
    && (forall d :: d in s.rows ==> d in s'.rows && s'.rows[d].amount == s.rows[d].amount)
    && (forall d :: d in s.credits ==> d in s'.credits && s'.credits[d] == s.credits[d])
    && (forall d :: d in s'.claimed && d !in s.claimed ==> d in s'.rows)
  }

  lemma GoPays(w: World, t: ThreadId, reply: Reply)
    requires Sound(w) && t in w.threads
    ensures var x := DailyReward.Advance(w.shared, w.threads[t], reply);
      && RowsAndCredits(x.0) && PaysRight(x.0, x.1) && Stays(w.shared, x.0)
      && (!x.1.Done? ==> LiveOn(w.threads[t], x.1.day))
  {
    hide Award, Claims;
    var pc := w.threads[t];
    assert PaysRight(w.shared, pc);
    if pc.Claiming? && pc.day !in w.shared.rows && reply != Refused {
      assert pc.day !in w.shared.claimed by { NotOver(w, t); }
      CommitPays(w.shared, pc.day, Proposed(pc.read, pc.day));
    }
  }

  // A live claim's day is not over, so if it has been claimed its row is there.
  lemma NotOver(w: World, t: ThreadId)
    requires Sound(w) && t in w.threads && !w.threads[t].Done?
    ensures w.threads[t].day in w.shared.claimed ==> w.threads[t].day in w.shared.rows
  {
    hide RowsAndCredits, PaysRight;
    var day := w.threads[t].day;
    assert LiveOn(w.threads[t], day);
  }

  lemma CommitPays(s: Shared, day: int, next: Record)
    requires RowsAndCredits(s) && day !in s.claimed && day !in s.rows && day <= s.today
    ensures RowsAndCredits(Claim(s, day, next)) && Stays(s, Claim(s, day, next))
  {
    hide Award;
    var s' := Claim(s, day, next);
    forall i, j | 0 <= i < j < |s'.claimed| ensures s'.claimed[i] != s'.claimed[j] {
      assert s'.claimed[i] == s.claimed[i] && s.claimed[i] in s.claimed;
    }
  }

  lemma OthersPay(s: Shared, s': Shared, pc: Pc)
    requires PaysRight(s, pc) && Stays(s, s')
    ensures PaysRight(s', pc)
  {
  }

  lemma SoundStep(w: World, a: Action)
    requires Sound(w)
    requires a.Expire? ==> forall t :: t in w.threads ==> !LiveOn(w.threads[t], a.day)
    ensures Sound(Step(w, a))
  {
    match a
    case Go(t, reply) => if t in w.threads { SoundGo(w, t, reply); }
    case NextDay(day) => SoundNextDay(w, day);
    case Expire(day) => SoundExpire(w, day);
    case Spin(t) => SoundSpin(w, t);
    case Crash(t) => SoundCrash(w, t);
  }

  lemma SoundGo(w: World, t: ThreadId, reply: Reply)
    requires Sound(w) && t in w.threads
    ensures Sound(Step(w, Go(t, reply)))
  {
    GoPays(w, t, reply);
    hide DailyReward.Advance, RowsAndCredits, PaysRight;
    var x := DailyReward.Advance(w.shared, w.threads[t], reply);
    var w' := Step(w, Go(t, reply));
    forall u | u in w'.threads ensures PaysRight(w'.shared, w'.threads[u]) {
      if u != t { OthersPay(w.shared, x.0, w.threads[u]); }
    }
    forall d | d in w'.shared.claimed && d !in w'.shared.rows ensures Over(w', d) {
      assert Over(w, d);
    }
  }

  lemma SoundNextDay(w: World, day: int)
    requires Sound(w)
    ensures Sound(Step(w, NextDay(day)))
  {
    var w' := Step(w, NextDay(day));
    forall d | d in w'.shared.claimed && d !in w'.shared.rows ensures Over(w', d) { assert Over(w, d); }
  }

  lemma SoundExpire(w: World, day: int)
    requires Sound(w) && forall t :: t in w.threads ==> !LiveOn(w.threads[t], day)
    ensures Sound(Step(w, Expire(day)))
  {
    var w' := Step(w, Expire(day));
    forall t | t in w'.threads ensures PaysRight(w'.shared, w'.threads[t]) {
      assert PaysRight(w.shared, w.threads[t]) && !LiveOn(w.threads[t], day);
    }
    forall d | d in w'.shared.claimed && d !in w'.shared.rows ensures Over(w', d) {
      if d in w.shared.rows { assert d == day; } else { assert Over(w, d); }
    }
  }

  lemma SoundSpin(w: World, t: ThreadId)
    requires Sound(w)
    ensures Sound(Step(w, Spin(t)))
  {
    hide RowsAndCredits;
    var w' := Step(w, Spin(t));
    forall d | d in w'.shared.claimed && d !in w'.shared.rows ensures Over(w', d) { assert Over(w, d); }
  }

  lemma SoundCrash(w: World, t: ThreadId)
    requires Sound(w)
    ensures Sound(Step(w, Crash(t)))
  {
    hide RowsAndCredits;
    var w' := Step(w, Crash(t));
    forall d | d in w'.shared.claimed && d !in w'.shared.rows ensures Over(w', d) { assert Over(w, d); }
  }

  // Rows and credits carry the award of a claim that committed.
  ghost predicate Backed(w: World, actions: seq<Action>) {
    var s := Run(w, actions).shared;
    && (forall d :: d in s.rows ==> CommittedFor(w, actions, d, s.rows[d].amount))
    && (forall d :: d in s.credits ==> CommittedFor(w, actions, d, s.credits[d]))
  }

  // A new row is a commit's; a new credit is a row's.
  lemma WhereFrom(w: World, a: Action, d: int)
    requires Sound(w)
    ensures var s, s' := w.shared, Step(w, a).shared;
      && (d in s'.rows ==> (d in s.rows && s.rows[d].amount == s'.rows[d].amount) || CommitsFor(w, a, d, s'.rows[d].amount))
      && (d in s'.credits ==>
            (d in s.credits && s.credits[d] == s'.credits[d]) || (d in s.rows && s.rows[d].amount == s'.credits[d]))
  {
    hide Award, RowsAndCredits, Over;
    if a.Go? && a.t in w.threads { assert PaysRight(w.shared, w.threads[a.t]); }
  }

  lemma {:induction false} MoneyRun(today: int, actions: seq<Action>)
    requires RowsOutliveClaims(Fresh(today), actions)
    ensures Sound(Run(Fresh(today), actions)) && Backed(Fresh(today), actions)
    decreases |actions|
  {
    hide Step, Sound, CommitsFor;
    if actions == [] {
      NothingYet(today);
    } else {
      var before, last := actions[..|actions| - 1], actions[|actions| - 1];
      MoneyRun(today, before);
      SoundStep(Run(Fresh(today), before), last);
      var s := Run(Fresh(today), actions).shared;
      forall d | d in s.rows ensures CommittedFor(Fresh(today), actions, d, s.rows[d].amount) {
        WhereFrom(Run(Fresh(today), before), last, d);
      }
      forall d | d in s.credits ensures CommittedFor(Fresh(today), actions, d, s.credits[d]) {
        WhereFrom(Run(Fresh(today), before), last, d);
      }
    }
  }

  lemma NothingYet(today: int)
    ensures Sound(Fresh(today)) && Backed(Fresh(today), [])
  {
  }

  // Every run, with midnights anywhere, of claims that do not outlive their day
  // row: no day is claimed twice, a day is credited at most once and only with the
  // award of the claim of that day that committed, a row marked paid is credited,
  // and whoever was told paid, or paid already, was.
  lemma MoneyIsSafe(today: int, actions: seq<Action>)
    requires RowsOutliveClaims(Fresh(today), actions)
    ensures var w := Run(Fresh(today), actions); var s := w.shared;
      && (forall i, j :: 0 <= i < j < |s.claimed| ==> s.claimed[i] != s.claimed[j])
      && (forall d :: d in s.credits ==> CommittedFor(Fresh(today), actions, d, s.credits[d]))
      && (forall d :: d in s.rows && d in s.credits ==> s.credits[d] == s.rows[d].amount)
      && (forall d :: d in s.rows && s.rows[d].completed ==> d in s.credits)
      && (forall t :: t in w.threads && w.threads[t].Done? && w.threads[t].result.Paid? ==>
            var r := w.threads[t].result; r.day in s.credits && s.credits[r.day] == r.amount)
      && (forall t :: t in w.threads && w.threads[t].Done? && w.threads[t].result.AlreadyPaid? ==>
            w.threads[t].result.day in s.credits)
  {
    hide Run, CommittedFor, RowsOutliveClaims, Over;
    MoneyRun(today, actions);
    var w := Run(Fresh(today), actions);
    forall t | t in w.threads && w.threads[t].Done?
      ensures PaysRight(w.shared, w.threads[t])
    {
    }
  }

  // A credit, once made, never changes.
  lemma {:induction false} CreditStands(w: World, actions: seq<Action>, day: int)
    requires day in w.shared.credits
    ensures var s := Run(w, actions).shared; day in s.credits && s.credits[day] == w.shared.credits[day]
    decreases |actions|
  {
    hide Award;
    if actions != [] { CreditStands(w, actions[..|actions| - 1], day); }
  }
}
