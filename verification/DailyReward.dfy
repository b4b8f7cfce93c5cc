// One player's daily reward: claims of the day that may run at once, crash
// between steps, lose replies and be retried.
module DailyReward {
  import opened Sums
  import opened Replies
  import opened Streak

  type ThreadId = nat

  // One day's claim, written once; it expires two days later.
  datatype DayRow = DayRow(amount: nat, completed: bool)

  // `claimed` is history: the days whose claim committed, in order. `credits`
  // is the wallet's memory of the daily credit of each day.
  datatype Shared = Shared(
    today: int,
    streak: Record,
    rows: map<int, DayRow>,
    credits: map<int, nat>,
    claimed: seq<int>)

  datatype Result = Paid(day: int, amount: nat) | AlreadyPaid(day: int) | Error

  datatype Pc =
    | Loading(day: int)
    | Claiming(day: int, read: Record)
    | ReadingDay(day: int)
    | Crediting(day: int, amount: nat)
    | Completing(day: int, amount: nat)
    | Done(result: Result)

  // The record a claim of `day` proposes: a day already counted is not counted twice.
  function Proposed(streak: Record, day: int): Record {
    if streak.lastClaim == Some(day) then streak else Streak.Advance(streak, day)
  }

  // The create-only day row and the streak row, together or not at all.
  function Claim(s: Shared, day: int, next: Record): Shared
    requires day !in s.rows
  {
    s.(streak := next, rows := s.rows[day := DayRow(Award(next), false)], claimed := s.claimed + [day])
  }

  // The wallet remembers each day's credit; only the first one moves money.
  function Credit(s: Shared, day: int, amount: nat): Shared {
    if day in s.credits then s else s.(credits := s.credits[day := amount])
  }

  function Complete(s: Shared, day: int): Shared
    requires day in s.rows
  {
    s.(rows := s.rows[day := s.rows[day].(completed := true)])
  }

  // What it writes was worked out from the streak row it had read.
  function OnClaiming(s: Shared, day: int, read: Record, reply: Reply): (Shared, Pc) {
    var next := Proposed(read, day);
    if reply == Refused then (s, Done(Error))
    else if day in s.rows then (s, ReadingDay(day))
    else (Claim(s, day, next), if reply == Landed then Crediting(day, Award(next)) else Done(Error))
  }

  function OnReadingDay(s: Shared, day: int, reply: Reply): Pc {
    if reply != Landed || day !in s.rows then Done(Error)
    else if s.rows[day].completed then Done(AlreadyPaid(day))
    else Crediting(day, s.rows[day].amount)
  }

  function OnCrediting(s: Shared, day: int, amount: nat, reply: Reply): (Shared, Pc) {
    (if reply.Applied() then Credit(s, day, amount) else s,
     if reply == Landed then Completing(day, amount) else Done(Error))
  }

  function OnCompleting(s: Shared, day: int, amount: nat, reply: Reply): (Shared, Pc) {
    if reply == Refused || day !in s.rows then (s, Done(Error))
    else (Complete(s, day), Done(if reply == Landed then Paid(day, amount) else Error))
  }

  function Advance(s: Shared, pc: Pc, reply: Reply): (Shared, Pc) {
    match pc
    case Loading(day) => (s, if reply == Landed then Claiming(day, s.streak) else Done(Error))
    case Claiming(day, read) => OnClaiming(s, day, read, reply)
    case ReadingDay(day) => (s, OnReadingDay(s, day, reply))
    case Crediting(day, amount) => OnCrediting(s, day, amount, reply)
    case Completing(day, amount) => OnCompleting(s, day, amount, reply)
    case Done(_) => (s, pc)
  }

  // A claim reports an outcome only on an answer it got; the one unheard write it goes
  // on from is one that found the day claimed already.
  lemma UnheardIsError(s: Shared, pc: Pc, reply: Reply)
    requires !pc.Done? && reply != Landed
    ensures var next := Advance(s, pc, reply).1;
      next == Done(Error) || (pc.Claiming? && reply == Lost && pc.day in s.rows && next == ReadingDay(pc.day))
  {
  }

  datatype World = World(shared: Shared, threads: map<ThreadId, Pc>)

  datatype Action =
    | Spin(t: ThreadId)
    | Go(t: ThreadId, reply: Reply)
    | Crash(t: ThreadId)
    | NextDay(day: int)
    | Expire(day: int)

  predicate Quiet(w: World) { forall t :: t in w.threads ==> w.threads[t].Done? }

  // The next day comes whether or not claims of this one are still running.
  function Step(w: World, a: Action): World {
    var s := w.shared;
    match a
    case Spin(t) => if t in w.threads then w else w.(threads := w.threads[t := Loading(s.today)])
    case Go(t, reply) =>
      if t !in w.threads then w
      else
        var x := Advance(s, w.threads[t], reply);
        World(x.0, w.threads[t := x.1])
    case Crash(t) =>
      if t in w.threads && !w.threads[t].Done? then w.(threads := w.threads[t := Done(Error)]) else w
    case NextDay(day) =>
      if day > s.today then w.(shared := s.(today := day)) else w
    case Expire(day) =>
      if day + 2 <= s.today then w.(shared := s.(rows := s.rows - {day})) else w
  }

  function Run(w: World, actions: seq<Action>): World
    decreases |actions|
  {
    if actions == [] then w else Step(Run(w, actions[..|actions| - 1]), actions[|actions| - 1])
  }

  // One claim on its own.
  function Solo(s: Shared, pc: Pc, replies: seq<Reply>): (Shared, Pc)
    decreases |replies|
  {
    if replies == [] then (s, pc)
    else
      var x := Solo(s, pc, replies[..|replies| - 1]);
      Advance(x.0, x.1, replies[|replies| - 1])
  }

  function Goes(t: ThreadId, replies: seq<Reply>): (actions: seq<Action>)
    ensures |actions| == |replies|
  {
    seq(|replies|, n requires 0 <= n < |replies| => Go(t, replies[n]))
  }

  lemma {:induction false} SoloIsRun(w: World, t: ThreadId, replies: seq<Reply>)
    requires t in w.threads
    ensures var x := Solo(w.shared, w.threads[t], replies);
      Run(w, Goes(t, replies)) == World(x.0, w.threads[t := x.1])
    decreases |replies|
  {
    hide Advance;
    if replies == [] {
      assert w.threads == w.threads[t := w.threads[t]];
    } else {
      var before := replies[..|replies| - 1];
      SoloIsRun(w, t, before);
      assert Goes(t, replies)[..|replies| - 1] == Goes(t, before);
    }
  }

  // ---------- Safety ----------

  // What the claim of the i-th claimed day is worth.
  ghost function Worth(claimed: seq<int>, i: nat): nat
    requires i < |claimed|
  {
    Award(Claims(claimed[..i + 1]))
  }

  ghost predicate Owed(s: Shared, day: int, amount: nat) {
    exists i :: 0 <= i < |s.claimed| && s.claimed[i] == day && amount == Worth(s.claimed, i)
  }

  // The streak row is the fold of the days claimed, each exactly once; a recent
  // claim still has its row; rows and credits carry the worth of their day.
  ghost predicate HistoryOk(s: Shared) {
    && Increasing(s.claimed)
    && (forall i :: 0 <= i < |s.claimed| ==> s.claimed[i] <= s.today)
    && s.streak == Claims(s.claimed)
    && (forall d :: d in s.rows ==> Owed(s, d, s.rows[d].amount))
    && (s.today in s.claimed ==> s.today in s.rows)
  }

  ghost predicate MoneyOk(s: Shared) {
    && (forall d :: d in s.credits ==> Owed(s, d, s.credits[d]))
    && (forall d :: d in s.rows && s.rows[d].completed ==> d in s.credits)
  }

  ghost predicate SharedOk(s: Shared) { HistoryOk(s) && MoneyOk(s) }

  // Today's row says the credit landed; older rows may have expired.
  ghost predicate Settled(s: Shared, day: int) {
    day <= s.today && (day == s.today ==> day in s.rows && s.rows[day].completed)
  }

  ghost predicate PcOk(s: Shared, pc: Pc) {
    match pc
    case Loading(day) => day == s.today
    case Claiming(day, read) => day == s.today && (day !in s.claimed ==> read == s.streak)
    case ReadingDay(day) => day == s.today && day in s.claimed
    case Crediting(day, amount) => day == s.today && day in s.rows && amount == s.rows[day].amount
    case Completing(day, amount) =>
      day == s.today && day in s.rows && amount == s.rows[day].amount && day in s.credits
    case Done(result) =>
      match result
      case Paid(day, amount) => day in s.credits && s.credits[day] == amount && Settled(s, day)
      case AlreadyPaid(day) => day in s.credits && Settled(s, day)
      case Error => true
  }

  ghost predicate Inv(w: World) {
    SharedOk(w.shared) && forall t :: t in w.threads ==> PcOk(w.shared, w.threads[t])
  }

  // Nothing claimed or credited is ever taken back within the day.
  ghost predicate Forward(s: Shared, s': Shared) {
    && s'.today == s.today
    && s.claimed <= s'.claimed
    && (forall d :: d in s.rows ==> d in s'.rows && s'.rows[d].amount == s.rows[d].amount)
    && (forall d :: d in s.rows && s.rows[d].completed ==> s'.rows[d].completed)
    && (forall d :: d in s.credits ==> d in s'.credits && s'.credits[d] == s.credits[d])
    && (s.today in s.claimed || s.today in s'.claimed || s'.streak == s.streak)
  }

  lemma WorthStable(a: seq<int>, b: seq<int>, i: nat)
    requires a <= b && i < |a|
    ensures Worth(a, i) == Worth(b, i)
  {
    assert a[..i + 1] == b[..i + 1];
  }

  lemma OwedStable(s: Shared, s': Shared, day: int, amount: nat)
    requires Owed(s, day, amount) && s.claimed <= s'.claimed
    ensures Owed(s', day, amount)
  {
    var i :| 0 <= i < |s.claimed| && s.claimed[i] == day && amount == Worth(s.claimed, i);
    WorthStable(s.claimed, s'.claimed, i);
    assert s'.claimed[i] == day;
  }

  lemma OwedUnique(s: Shared, day: int, a: nat, b: nat)
    requires Increasing(s.claimed) && Owed(s, day, a) && Owed(s, day, b)
    ensures a == b
  {
  }

  ghost predicate Kept(s: Shared, next: (Shared, Pc)) {
    SharedOk(next.0) && PcOk(next.0, next.1) && Forward(s, next.0)
  }

  lemma LastIsToday(s: Shared)
    requires HistoryOk(s)
    ensures s.today in s.claimed <==> s.streak.lastClaim == Some(s.today)
    ensures s.today in s.claimed <==> s.today in s.rows
  {
    ClaimsCount(s.claimed);
    hide Claims, Award;
    if s.today in s.claimed {
      var i :| 0 <= i < |s.claimed| && s.claimed[i] == s.today;
      assert s.claimed[|s.claimed| - 1] <= s.today;
      assert i == |s.claimed| - 1;
    }
  }

  lemma LoadKeeps(s: Shared, pc: Pc, reply: Reply)
    requires SharedOk(s) && PcOk(s, pc) && pc.Loading?
    ensures Kept(s, Advance(s, pc, reply))
  {
    LastIsToday(s);
  }

  lemma ClaimKeeps(s: Shared, pc: Pc, reply: Reply)
    requires SharedOk(s) && PcOk(s, pc) && pc.Claiming?
    ensures Kept(s, Advance(s, pc, reply))
  {
    LastIsToday(s);
    if reply != Refused && pc.day !in s.rows {
      CommitKeeps(s, Proposed(pc.read, pc.day));
    }
  }

  lemma CommitKeeps(s: Shared, next: Record)
    requires SharedOk(s) && s.today !in s.rows && next == Streak.Advance(s.streak, s.today)
    ensures var s' := Claim(s, s.today, next);
      SharedOk(s') && Forward(s, s') && Owed(s', s.today, Award(next))
  {
    hide Claims, Award, Owed, Streak.Advance;
    LastIsToday(s);
    var s' := Claim(s, s.today, next);
    var n := |s.claimed|;
    assert s'.claimed == s.claimed + [s.today];
    ClaimsLast(s.claimed, s.today);
    NewestOwed(s', next);
    forall d | d in s.rows ensures Owed(s', d, s.rows[d].amount) { OwedStable(s, s', d, s.rows[d].amount); }
    forall d | d in s.credits ensures Owed(s', d, s.credits[d]) { OwedStable(s, s', d, s.credits[d]); }
    CommitHistory(s, s');
  }

  lemma CommitHistory(s: Shared, s': Shared)
    requires HistoryOk(s) && s.today !in s.claimed && s'.claimed == s.claimed + [s.today]
    ensures Increasing(s'.claimed) && s.claimed <= s'.claimed
  {
    hide Claims, Owed;
    forall i | 0 <= i < |s.claimed| ensures s.claimed[i] < s.today {
      assert s.claimed[i] in s.claimed;
    }
  }

  lemma NewestOwed(s: Shared, next: Record)
    requires s.claimed != [] && next == Claims(s.claimed)
    ensures Owed(s, s.claimed[|s.claimed| - 1], Award(next))
  {
    hide Claims, Award;
    var n := |s.claimed| - 1;
    assert s.claimed[..n + 1] == s.claimed;
    assert Award(next) == Worth(s.claimed, n);
  }

  lemma ClaimsLast(days: seq<int>, day: int)
    ensures Claims(days + [day]) == Streak.Advance(Claims(days), day)
  {
    assert (days + [day])[..|days|] == days;
  }

  lemma ReadKeeps(s: Shared, pc: Pc, reply: Reply)
    requires SharedOk(s) && PcOk(s, pc) && pc.ReadingDay?
    ensures Kept(s, Advance(s, pc, reply))
  {
    hide Worth;
  }

  lemma CreditKeeps(s: Shared, pc: Pc, reply: Reply)
    requires SharedOk(s) && PcOk(s, pc) && pc.Crediting?
    ensures Kept(s, Advance(s, pc, reply))
  {
    hide Owed, Increasing, Claims;
    var s' := Advance(s, pc, reply).0;
    forall d | d in s'.credits ensures Owed(s', d, s'.credits[d]) {
      assert if d in s.credits then Owed(s, d, s.credits[d]) else Owed(s, d, s.rows[d].amount);
      OwedStable(s, s', d, s'.credits[d]);
    }
    forall d | d in s'.rows ensures Owed(s', d, s'.rows[d].amount) { OwedStable(s, s', d, s.rows[d].amount); }
  }

  lemma CompleteKeeps(s: Shared, pc: Pc, reply: Reply)
    requires SharedOk(s) && PcOk(s, pc) && pc.Completing?
    ensures Kept(s, Advance(s, pc, reply))
  {
    hide Owed, Increasing, Claims;
    var s' := Advance(s, pc, reply).0;
    forall d | d in s'.credits ensures Owed(s', d, s'.credits[d]) { OwedStable(s, s', d, s.credits[d]); }
    forall d | d in s'.rows ensures Owed(s', d, s'.rows[d].amount) { OwedStable(s, s', d, s.rows[d].amount); }
    OwedUnique(s, pc.day, s.credits[pc.day], pc.amount);
  }

  lemma AdvanceKeeps(s: Shared, pc: Pc, reply: Reply)
    requires SharedOk(s) && PcOk(s, pc)
    ensures Kept(s, Advance(s, pc, reply))
  {
    hide Advance, SharedOk, PcOk, Kept;
    match pc
    case Loading(_) => LoadKeeps(s, pc, reply);
    case Claiming(_, _) => ClaimKeeps(s, pc, reply);
    case ReadingDay(_) => ReadKeeps(s, pc, reply);
    case Crediting(_, _) => CreditKeeps(s, pc, reply);
    case Completing(_, _) => CompleteKeeps(s, pc, reply);
    case Done(_) => DoneKeeps(s, pc, reply);
  }

  lemma DoneKeeps(s: Shared, pc: Pc, reply: Reply)
    requires SharedOk(s) && PcOk(s, pc) && pc.Done?
    ensures Kept(s, Advance(s, pc, reply))
  {
  }

  lemma OthersStable(s: Shared, s': Shared, pc: Pc)
    requires SharedOk(s) && PcOk(s, pc) && Forward(s, s') && HistoryOk(s')
    ensures PcOk(s', pc)
  {
    hide Claims, Award, Owed;
    LastIsToday(s);
    LastIsToday(s');
    if pc.Claiming? && pc.day !in s'.claimed {
      assert pc.day !in s.claimed;
    }
  }

  lemma StepKeeps(w: World, a: Action)
    requires Inv(w) && (a.NextDay? ==> Quiet(w))
    ensures Inv(Step(w, a))
  {
    hide Advance, SharedOk, PcOk;
    match a
    case Spin(t) => StartKeeps(w, t);
    case Go(t, reply) =>
      if t in w.threads {
        var x := Advance(w.shared, w.threads[t], reply);
        AdvanceKeeps(w.shared, w.threads[t], reply);
        GoKeeps(w, t, x);
      }
    case Crash(t) => CrashKeeps(w, t);
    case NextDay(day) => if day > w.shared.today { NextDayKeeps(w, day); }
    case Expire(day) => if day + 2 <= w.shared.today { ExpireKeeps(w, day); }
  }

  lemma StartKeeps(w: World, t: ThreadId)
    requires Inv(w)
    ensures Inv(Step(w, Spin(t)))
  {
    hide SharedOk;
  }

  lemma CrashKeeps(w: World, t: ThreadId)
    requires Inv(w)
    ensures Inv(Step(w, Crash(t)))
  {
    hide SharedOk;
  }

  lemma GoKeeps(w: World, t: ThreadId, x: (Shared, Pc))
    requires Inv(w) && t in w.threads && Kept(w.shared, x)
    ensures Inv(World(x.0, w.threads[t := x.1]))
  {
    hide PcOk, HistoryOk, MoneyOk, Forward;
    forall u | u in w.threads && u != t ensures PcOk(x.0, w.threads[u]) {
      OthersStable(w.shared, x.0, w.threads[u]);
    }
  }

  lemma CreditsArePast(s: Shared)
    requires SharedOk(s)
    ensures forall d :: d in s.credits || d in s.rows ==> d <= s.today
  {
    hide Worth, Claims, Increasing;
  }

  lemma NextDayKeeps(w: World, day: int)
    requires Inv(w) && day > w.shared.today && Quiet(w)
    ensures Inv(w.(shared := w.shared.(today := day)))
  {
    hide Owed, Increasing, Claims;
    CreditsArePast(w.shared);
    var s, s' := w.shared, w.shared.(today := day);
    forall d | d in s.credits ensures Owed(s', d, s.credits[d]) { OwedStable(s, s', d, s.credits[d]); }
    forall d | d in s.rows ensures Owed(s', d, s.rows[d].amount) { OwedStable(s, s', d, s.rows[d].amount); }
  }

  lemma ExpireKeeps(w: World, day: int)
    requires Inv(w) && day + 2 <= w.shared.today
    ensures Inv(w.(shared := w.shared.(rows := w.shared.rows - {day})))
  {
    hide Owed, Increasing, Claims;
    CreditsArePast(w.shared);
    var s, s' := w.shared, w.shared.(rows := w.shared.rows - {day});
    forall d | d in s.credits ensures Owed(s', d, s.credits[d]) { OwedStable(s, s', d, s.credits[d]); }
    forall d | d in s'.rows ensures Owed(s', d, s'.rows[d].amount) { OwedStable(s, s', d, s.rows[d].amount); }
  }

  // No claim of a day is still running when the next day comes.
  ghost predicate DaysEndQuiet(w: World, actions: seq<Action>)
    decreases |actions|
  {
    actions == [] ||
    var before, last := actions[..|actions| - 1], actions[|actions| - 1];
    DaysEndQuiet(w, before) && (last.NextDay? ==> Quiet(Run(w, before)))
  }

  lemma {:induction false} RunKeeps(w: World, actions: seq<Action>)
    requires Inv(w) && DaysEndQuiet(w, actions)
    ensures Inv(Run(w, actions))
    decreases |actions|
  {
    hide Step, Inv, Quiet;
    if actions != [] {
      RunKeeps(w, actions[..|actions| - 1]);
      StepKeeps(Run(w, actions[..|actions| - 1]), actions[|actions| - 1]);
    }
  }

  function Fresh(today: int): World {
    World(Shared(today, NEVER_CLAIMED, map[], map[], []), map[])
  }

  // However many claims run, crash or are retried: the streak row has counted
  // every claimed day exactly once, a day is credited at most once and only with
  // the award of the claim that committed, and whoever was told "paid" was paid.
  lemma SpinSafety(today: int, actions: seq<Action>)
    requires DaysEndQuiet(Fresh(today), actions)
    ensures var w := Run(Fresh(today), actions); var s := w.shared;
      && Increasing(s.claimed)
      && s.streak == Claims(s.claimed)
      && s.streak.total == |s.claimed|
      && (forall d :: d in s.credits ==> Owed(s, d, s.credits[d]))
      && (forall t :: t in w.threads && w.threads[t].Done? && w.threads[t].result.Paid? ==>
            var r := w.threads[t].result; r.day in s.credits && s.credits[r.day] == r.amount)
  {
    hide Run, Worth;
    RunKeeps(Fresh(today), actions);
    ClaimsCount(Run(Fresh(today), actions).shared.claimed);
  }

  // A claim that starts once the day is settled never pays again.
  ghost predicate Late(s: Shared, pc: Pc) {
    match pc
    case Loading(day) => day == s.today && day in s.rows && s.rows[day].completed
    case Claiming(day, _) => day == s.today && day in s.rows && s.rows[day].completed
    case ReadingDay(day) => day == s.today && day in s.rows && s.rows[day].completed
    case Crediting(_, _) => false
    case Completing(_, _) => false
    case Done(result) => !result.Paid?
  }

  lemma {:induction false} LateStaysLate(w: World, t: ThreadId, actions: seq<Action>)
    requires Inv(w) && DaysEndQuiet(w, actions) && t in w.threads && Late(w.shared, w.threads[t])
    ensures var w' := Run(w, actions); t in w'.threads && Late(w'.shared, w'.threads[t])
    decreases |actions|
  {
    hide Step, Inv, Quiet;
    if actions != [] {
      var before := actions[..|actions| - 1];
      LateStaysLate(w, t, before);
      RunKeeps(w, before);
      LateStep(Run(w, before), t, actions[|actions| - 1]);
    }
  }

  lemma LateStep(w: World, t: ThreadId, a: Action)
    requires Inv(w) && (a.NextDay? ==> Quiet(w)) && t in w.threads && Late(w.shared, w.threads[t])
    ensures var w' := Step(w, a); t in w'.threads && Late(w'.shared, w'.threads[t])
  {
    hide Advance, PcOk, SharedOk;
    if a.Go? && a.t in w.threads { LateGo(w, t, a); }
  }

  lemma LateGo(w: World, t: ThreadId, a: Action)
    requires Inv(w) && t in w.threads && Late(w.shared, w.threads[t]) && a.Go? && a.t in w.threads
    ensures var w' := Step(w, a); Late(w'.shared, w'.threads[t])
  {
    hide PcOk, SharedOk, Late, Forward, Advance;
    AdvanceKeeps(w.shared, w.threads[a.t], a.reply);
    if a.t == t { LateAdvance(w.shared, w.threads[t], a.reply); }
    else { LateForward(w.shared, Step(w, a).shared, w.threads[t]); }
  }

  lemma LateForward(s: Shared, s': Shared, pc: Pc)
    requires Late(s, pc) && Forward(s, s')
    ensures Late(s', pc)
  {
  }

  lemma LateAdvance(s: Shared, pc: Pc, reply: Reply)
    requires Late(s, pc)
    ensures var x := Advance(s, pc, reply); Late(x.0, x.1)
  {
  }

  // Once any claim of today has been answered, a later one pays nothing.
  lemma SettledDayPaysNothing(w: World, u: ThreadId, t: ThreadId, actions: seq<Action>)
    requires Inv(w) && t !in w.threads && u in w.threads
    requires w.threads[u].Done? && (w.threads[u].result.Paid? || w.threads[u].result.AlreadyPaid?)
    requires w.threads[u].result.day == w.shared.today
    requires DaysEndQuiet(Step(w, Spin(t)), actions)
    ensures var w' := Run(Step(w, Spin(t)), actions);
      t in w'.threads && (w'.threads[t].Done? ==> !w'.threads[t].result.Paid?)
  {
    hide Run, SharedOk, DaysEndQuiet;
    assert PcOk(w.shared, w.threads[u]);
    StepKeeps(w, Spin(t));
    LateStaysLate(Step(w, Spin(t)), t, actions);
  }

  // ---------- The preview and the claim ----------

  // What the calendar's slot of today promises.
  function Preview(s: Shared): nat { Award(Proposed(s.streak, s.today)) }

  const ALL_LANDED := [Landed, Landed, Landed, Landed, Landed]

  // An undisturbed claim pays exactly what the calendar showed, whether the day
  // is untouched or was claimed by an attempt that never got credited.
  lemma PreviewIsPaid(s: Shared)
    requires SharedOk(s)
    ensures var settled := s.today in s.rows && s.rows[s.today].completed;
      Solo(s, Loading(s.today), ALL_LANDED).1
        == Done(if settled then AlreadyPaid(s.today) else Paid(s.today, Preview(s)))
  {
    hide Claims, Award, Worth;
    LastIsToday(s);
    SoloFive(s, Loading(s.today));
    if s.today in s.claimed { TodayRowIsPreview(s); }
  }

  lemma TodayRowIsPreview(s: Shared)
    requires SharedOk(s) && s.today in s.claimed
    ensures s.today in s.rows && s.rows[s.today].amount == Preview(s)
  {
    LastIsToday(s);
    var n := |s.claimed|;
    assert s.claimed[n - 1] == s.today;
    assert s.claimed[..n] == s.claimed;
    assert Owed(s, s.today, Worth(s.claimed, n - 1));
    OwedUnique(s, s.today, s.rows[s.today].amount, Worth(s.claimed, n - 1));
  }

  lemma SoloLast(s: Shared, pc: Pc, replies: seq<Reply>, reply: Reply)
    ensures var x := Solo(s, pc, replies); Solo(s, pc, replies + [reply]) == Advance(x.0, x.1, reply)
    ensures Solo(s, pc, []) == (s, pc)
  {
    hide Advance;
    assert (replies + [reply])[..|replies|] == replies;
  }

  lemma SoloFive(s: Shared, pc: Pc)
    ensures var x1 := Advance(s, pc, Landed);
      var x2 := Advance(x1.0, x1.1, Landed);
      var x3 := Advance(x2.0, x2.1, Landed);
      var x4 := Advance(x3.0, x3.1, Landed);
      Solo(s, pc, ALL_LANDED) == Advance(x4.0, x4.1, Landed)
  {
    hide Advance, Solo;
    SoloLast(s, pc, [], Landed);
    SoloLast(s, pc, [Landed], Landed);
    SoloLast(s, pc, [Landed, Landed], Landed);
    SoloLast(s, pc, [Landed, Landed, Landed], Landed);
    SoloLast(s, pc, [Landed, Landed, Landed, Landed], Landed);
    assert [] + [Landed] == [Landed];
    assert [Landed] + [Landed] == [Landed, Landed];
    assert [Landed, Landed] + [Landed] == [Landed, Landed, Landed];
    assert [Landed, Landed, Landed] + [Landed] == [Landed, Landed, Landed, Landed];
    assert [Landed, Landed, Landed, Landed] + [Landed] == ALL_LANDED;
  }
}
