// One pair of players' head-to-head record: counters guarded against replays by
// a bounded set of the hand ids already applied. Hand ids are numbered in the
// order they sort in.
module Matchup {
  import opened Replies

  type ThreadId = nat
  type HandId = nat

  const CAP := 12
  const KEEP := 8

  datatype Stats = Stats(
    hands: int, winsLow: int, winsHigh: int, ties: int, headsUpHands: int, netLow: int, netHigh: int)

  const ZERO := Stats(0, 0, 0, 0, 0, 0, 0)

  function Plus(a: Stats, b: Stats): Stats {
    Stats(a.hands + b.hands, a.winsLow + b.winsLow, a.winsHigh + b.winsHigh, a.ties + b.ties,
          a.headsUpHands + b.headsUpHands, a.netLow + b.netLow, a.netHigh + b.netHigh)
  }

  datatype Row = Row(stats: Stats, applied: set<HandId>)

  function Newer(s: set<HandId>, h: HandId): nat { |set g | g in s && g > h| }

  // Everything but the newest, never the hand just applied.
  function Stale(image: set<HandId>, keep: HandId): set<HandId> {
    set h | h in image && Newer(image, h) >= KEEP && h != keep
  }

  // A finished call remembers the image it should have pruned but did not.
  datatype Pc =
    | Applying(hand: HandId, delta: Stats)
    | Pruning(hand: HandId, image: set<HandId>)
    | Done(ok: bool, unpruned: set<HandId>)

  predicate Takes(row: Row, pc: Pc, reply: Reply) {
    pc.Applying? && reply != Refused && pc.hand !in row.applied
  }

  // Counters and guard move in one conditional write.
  function OnApplying(row: Row, hand: HandId, delta: Stats, reply: Reply): (Row, Pc) {
    if reply == Refused then (row, Done(false, {}))
    else if hand in row.applied then (row, Done(true, {}))
    else
      var after := Row(Plus(row.stats, delta), row.applied + {hand});
      (after, if reply == Lost then Done(false, after.applied)
              else if |after.applied| > CAP then Pruning(hand, after.applied)
              else Done(true, {}))
  }

  // A failed prune is not the caller's problem.
  function OnPruning(row: Row, hand: HandId, image: set<HandId>, reply: Reply): (Row, Pc) {
    if reply == Refused then (row, Done(true, image))
    else (row.(applied := row.applied - Stale(image, hand)), Done(true, {}))
  }

  function Advance(row: Row, pc: Pc, reply: Reply): (Row, Pc) {
    match pc
    case Applying(hand, delta) => OnApplying(row, hand, delta, reply)
    case Pruning(hand, image) => OnPruning(row, hand, image, reply)
    case Done(_, _) => (row, pc)
  }

  // A delivery fails only unheard, succeeds only with its hand in the guard set, and
  // never fails for the sake of its prune.
  lemma AnswersAreHonest(row: Row, pc: Pc, reply: Reply)
    requires !pc.Done?
    ensures var (row', pc') := Advance(row, pc, reply);
      if pc.Pruning? then pc'.Done? && pc'.ok
      else
        && (pc'.Done? && !pc'.ok <==> reply == Refused || (reply == Lost && pc.hand !in row.applied))
        && (pc'.Pruning? || (pc'.Done? && pc'.ok) ==> pc.hand in row'.applied)
  {
  }

  // `log` is history: every delta that reached the counters, in order.
  datatype World = World(row: Row, log: seq<(HandId, Stats)>, threads: map<ThreadId, Pc>)

  datatype Action =
    | Deliver(t: ThreadId, hand: HandId, delta: Stats)
    | Go(t: ThreadId, reply: Reply)
    | Crash(t: ThreadId)

  function Step(w: World, a: Action): World {
    match a
    case Deliver(t, hand, delta) =>
      if t in w.threads then w else w.(threads := w.threads[t := Applying(hand, delta)])
    case Go(t, reply) =>
      if t !in w.threads then w
      else
        var pc := w.threads[t];
        var x := Advance(w.row, pc, reply);
        World(x.0, if Takes(w.row, pc, reply) then w.log + [(pc.hand, pc.delta)] else w.log, w.threads[t := x.1])
    case Crash(t) =>
      if t !in w.threads || w.threads[t].Done? then w
      else w.(threads := w.threads[t := Done(false, if w.threads[t].Pruning? then w.threads[t].image else {})])
  }

  function Run(w: World, actions: seq<Action>): World
    decreases |actions|
  {
    if actions == [] then w else Step(Run(w, actions[..|actions| - 1]), actions[|actions| - 1])
  }

  const FRESH := World(Row(ZERO, {}), [], map[])

  // ---------- The replay guard ----------

  function Ids(log: seq<(HandId, Stats)>): set<HandId> { set i | 0 <= i < |log| :: log[i].0 }

  function Sum(log: seq<(HandId, Stats)>): Stats {
    if log == [] then ZERO else Plus(Sum(log[..|log| - 1]), log[|log| - 1].1)
  }

  ghost predicate Guarded(applied: set<HandId>, ever: set<HandId>) {
    applied <= ever && forall h :: h in ever && Newer(ever, h) < KEEP ==> h in applied
  }

  ghost predicate ImageOk(pc: Pc, ever: set<HandId>) {
    match pc
    case Pruning(_, image) => image <= ever
    case _ => true
  }

  // The call still has to prune, or failed to prune, all that is in the set.
  ghost predicate Answers(applied: set<HandId>, pc: Pc) {
    match pc
    case Pruning(_, image) => applied <= image
    case Done(_, unpruned) => applied <= unpruned
    case _ => false
  }

  ghost predicate SizeOk(w: World) {
    |w.row.applied| <= CAP || exists t :: t in w.threads && Answers(w.row.applied, w.threads[t])
  }

  ghost predicate Inv(w: World) {
    && w.row.stats == Sum(w.log)
    && Guarded(w.row.applied, Ids(w.log))
    && (forall t :: t in w.threads ==> ImageOk(w.threads[t], Ids(w.log)))
    && SizeOk(w)
  }

  lemma NewerGrows(a: set<HandId>, b: set<HandId>, h: HandId)
    requires a <= b
    ensures Newer(a, h) <= Newer(b, h)
  {
    SubsetSize(set g | g in a && g > h, set g | g in b && g > h);
  }

  lemma {:induction false} SubsetSize(a: set<HandId>, b: set<HandId>)
    requires a <= b
    ensures |a| <= |b|
    decreases a
  {
    if a != {} {
      var x :| x in a;
      SubsetSize(a - {x}, b - {x});
    }
  }

  lemma {:induction false} Largest(s: set<HandId>) returns (m: HandId)
    requires s != {}
    ensures m in s && forall h :: h in s ==> h <= m
    decreases s
  {
    m :| m in s;
    var rest := s - {m};
    assert s == rest + {m};
    if rest != {} {
      var r := Largest(rest);
      m := if r > m then r else m;
    }
  }

  lemma NewerBelowLargest(s: set<HandId>, m: HandId, h: HandId)
    requires m in s && h < m
    ensures Newer(s, h) == Newer(s - {m}, h) + 1
  {
    assert (set g | g in s && g > h) == (set g | g in s - {m} && g > h) + {m};
  }

  // The members with fewer than n above them.
  function Top(s: set<HandId>, n: nat): set<HandId> { set h | h in s && Newer(s, h) < n }

  // There are no more than n of them.
  lemma {:induction false} FewAtTheTop(s: set<HandId>, n: nat)
    ensures |Top(s, n)| <= n
    decreases s
  {
    hide Newer;
    if s == {} || n == 0 {
      assert Top(s, n) == {};
    } else {
      var m := Largest(s);
      FewAtTheTop(s - {m}, n - 1);
      TopWithout(s, m, n);
      SubsetSize(Top(s, n), Top(s - {m}, n - 1) + {m});
    }
  }

  lemma TopWithout(s: set<HandId>, m: HandId, n: nat)
    requires m in s && n > 0 && forall h :: h in s ==> h <= m
    ensures Top(s, n) <= Top(s - {m}, n - 1) + {m}
  {
    hide Newer;
    forall h | h in Top(s, n) && h != m
      ensures h in Top(s - {m}, n - 1)
    {
      NewerBelowLargest(s, m, h);
    }
  }

  lemma PruneLeavesFew(applied: set<HandId>, image: set<HandId>, keep: HandId)
    requires applied <= image
    ensures |applied - Stale(image, keep)| <= KEEP + 1
  {
    hide Newer;
    FewAtTheTop(image, KEEP);
    SubsetSize(applied - Stale(image, keep), Top(image, KEEP) + {keep});
  }

  lemma IdsLast(log: seq<(HandId, Stats)>, e: (HandId, Stats))
    ensures Ids(log + [e]) == Ids(log) + {e.0}
    ensures Sum(log + [e]) == Plus(Sum(log), e.1)
  {
    var longer := log + [e];
    assert longer[..|log|] == log;
    assert longer[|log|] == e;
    forall h | h in Ids(log) ensures h in Ids(longer) {
      var i :| 0 <= i < |log| && log[i].0 == h;
      assert longer[i].0 == h;
    }
  }

  lemma ApplyGuards(applied: set<HandId>, ever: set<HandId>, hand: HandId)
    requires Guarded(applied, ever)
    ensures Guarded(applied + {hand}, ever + {hand})
  {
    forall h | h in ever && Newer(ever + {hand}, h) < KEEP
      ensures h in applied
    {
      NewerGrows(ever, ever + {hand}, h);
    }
  }

  lemma PruneGuards(applied: set<HandId>, ever: set<HandId>, image: set<HandId>, keep: HandId)
    requires Guarded(applied, ever) && image <= ever
    ensures Guarded(applied - Stale(image, keep), ever)
  {
    forall h | h in ever && Newer(ever, h) < KEEP
      ensures h !in Stale(image, keep)
    {
      NewerGrows(image, ever, h);
    }
  }

  lemma TakeKeeps(w: World, t: ThreadId, reply: Reply)
    requires Inv(w) && t in w.threads && Takes(w.row, w.threads[t], reply)
    ensures Inv(Step(w, Go(t, reply)))
  {
    hide Guarded, Sum, Ids;
    var pc, w' := w.threads[t], Step(w, Go(t, reply));
    IdsLast(w.log, (pc.hand, pc.delta));
    ApplyGuards(w.row.applied, Ids(w.log), pc.hand);
    assert Guarded(w'.row.applied, Ids(w'.log));
    assert w'.row.applied <= Ids(w'.log) by { GuardedIsSubset(w'.row.applied, Ids(w'.log)); }
    assert |w'.row.applied| > CAP ==> Answers(w'.row.applied, w'.threads[t]);
  }

  lemma GuardedIsSubset(applied: set<HandId>, ever: set<HandId>)
    requires Guarded(applied, ever)
    ensures applied <= ever
  {
  }

  lemma PruneKeeps(w: World, t: ThreadId, reply: Reply)
    requires Inv(w) && t in w.threads && w.threads[t].Pruning?
    ensures Inv(Step(w, Go(t, reply)))
  {
    hide Guarded, Sum, Ids, Stale;
    var pc, w' := w.threads[t], Step(w, Go(t, reply));
    PruneGuards(w.row.applied, Ids(w.log), pc.image, pc.hand);
    SubsetSize(w'.row.applied, w.row.applied);
    if |w'.row.applied| > CAP {
      var u :| u in w.threads && Answers(w.row.applied, w.threads[u]);
      if u == t && reply != Refused {
        PruneLeavesFew(w.row.applied, pc.image, pc.hand);
      } else {
        assert Answers(w'.row.applied, w'.threads[u]);
      }
    }
  }

  lemma RestKeeps(w: World, a: Action)
    requires Inv(w)
    requires a.Go? && a.t in w.threads ==> !Takes(w.row, w.threads[a.t], a.reply) && !w.threads[a.t].Pruning?
    ensures Inv(Step(w, a))
  {
    hide Guarded, Sum, Ids, Stale;
    var w' := Step(w, a);
    assert w'.row == w.row && w'.log == w.log;
    if |w.row.applied| > CAP {
      var u :| u in w.threads && Answers(w.row.applied, w.threads[u]);
      assert Answers(w'.row.applied, w'.threads[u]);
    }
  }

  lemma StepKeeps(w: World, a: Action)
    requires Inv(w)
    ensures Inv(Step(w, a))
  {
    hide Step, Inv;
    if a.Go? && a.t in w.threads && Takes(w.row, w.threads[a.t], a.reply) {
      TakeKeeps(w, a.t, a.reply);
    } else if a.Go? && a.t in w.threads && w.threads[a.t].Pruning? {
      PruneKeeps(w, a.t, a.reply);
    } else {
      RestKeeps(w, a);
    }
  }

  lemma {:induction false} RunKeeps(w: World, actions: seq<Action>)
    requires Inv(w)
    ensures Inv(Run(w, actions))
    decreases |actions|
  {
    hide Step, Inv;
    if actions != [] {
      RunKeeps(w, actions[..|actions| - 1]);
      StepKeeps(Run(w, actions[..|actions| - 1]), actions[|actions| - 1]);
    }
  }

  // Whatever interleaves, the guard set holds every hand ever applied that has
  // fewer than eight newer ones, and nothing that was never applied.
  lemma NewestEightGuarded(actions: seq<Action>, h: HandId)
    ensures var w := Run(FRESH, actions);
      && w.row.applied <= Ids(w.log)
      && (h in Ids(w.log) && Newer(Ids(w.log), h) < KEEP ==> h in w.row.applied)
  {
    hide Run;
    RunKeeps(FRESH, actions);
  }

  // Once every call has returned and none left its prune undone, the set is
  // within its cap: the last one to grow it past the cap has cut it back.
  lemma GuardStaysSmall(actions: seq<Action>)
    ensures var w := Run(FRESH, actions);
      (forall t :: t in w.threads ==> w.threads[t].Done? && w.threads[t].unpruned == {}) ==> |w.row.applied| <= CAP
  {
    hide Run;
    RunKeeps(FRESH, actions);
  }

  // ---------- Exactly once ----------

  ghost predicate Once(log: seq<(HandId, Stats)>) {
    forall i, j :: 0 <= i < j < |log| ==> log[i].0 != log[j].0
  }

  // The moment a delivery is applied, fewer than eight newer hands have been,
  // unless it is applied for the first time.
  ghost predicate TimelyStep(w: World, a: Action) {
    a.Go? && a.t in w.threads && w.threads[a.t].Applying? && a.reply != Refused ==>
      var h := w.threads[a.t].hand; h in Ids(w.log) ==> Newer(Ids(w.log), h) < KEEP
  }

  ghost predicate Timely(w: World, actions: seq<Action>)
    decreases |actions|
  {
    actions == [] ||
    (Timely(w, actions[..|actions| - 1]) && TimelyStep(Run(w, actions[..|actions| - 1]), actions[|actions| - 1]))
  }

  // The step delivers this hand and the store answers.
  ghost predicate Delivers(w: World, a: Action, h: HandId) {
    a.Go? && a.t in w.threads && w.threads[a.t].Applying? && w.threads[a.t].hand == h && a.reply != Refused
  }

  // A hand already counted is counted again exactly when it is delivered while the
  // guard set does not hold it; that takes eight newer hands counted before.
  lemma CountsTwiceIff(w: World, a: Action)
    requires Inv(w) && Once(w.log)
    ensures !Once(Step(w, a).log) <==> exists h :: Delivers(w, a, h) && h in Ids(w.log) && h !in w.row.applied
    ensures forall h :: Delivers(w, a, h) && h in Ids(w.log) && h !in w.row.applied ==>
      Newer(Ids(w.log), h) >= KEEP && Step(w, a).row.stats == Plus(w.row.stats, w.threads[a.t].delta)
  {
    hide Guarded, Sum;
    GuardedMeans(w.row.applied, Ids(w.log));
    if a.Go? && a.t in w.threads && Takes(w.row, w.threads[a.t], a.reply) {
      var pc := w.threads[a.t];
      assert Delivers(w, a, pc.hand);
      OnceMore(w.log, (pc.hand, pc.delta));
    }
  }

  lemma GuardedMeans(applied: set<HandId>, ever: set<HandId>)
    requires Guarded(applied, ever)
    ensures forall h :: h in ever && h !in applied ==> Newer(ever, h) >= KEEP
  {
  }

  lemma OnceMore(log: seq<(HandId, Stats)>, e: (HandId, Stats))
    requires Once(log)
    ensures Once(log + [e]) <==> e.0 !in Ids(log)
  {
    var log' := log + [e];
    if e.0 in Ids(log) {
      var i :| 0 <= i < |log| && log[i].0 == e.0;
      assert log'[i].0 == log'[|log|].0;
    } else {
      assert forall i :: 0 <= i < |log| ==> log[i].0 in Ids(log);
    }
  }

  lemma {:induction false} TimelyCountsOnce(w: World, actions: seq<Action>)
    requires Inv(w) && Once(w.log) && Timely(w, actions)
    ensures Once(Run(w, actions).log)
    decreases |actions|
  {
    hide Step, Once;
    if actions != [] {
      var n := |actions| - 1;
      TimelyCountsOnce(w, actions[..n]);
      RunKeeps(w, actions[..n]);
      CountsTwiceIff(Run(w, actions[..n]), actions[n]);
      TimelyIsGuarded(Run(w, actions[..n]), actions[n]);
    }
  }

  lemma TimelyIsGuarded(w: World, a: Action)
    requires Inv(w) && TimelyStep(w, a)
    ensures forall h :: Delivers(w, a, h) && h in Ids(w.log) ==> h in w.row.applied
  {
    GuardedMeans(w.row.applied, Ids(w.log));
  }

  // The sum over distinct hands, in no particular order.
  ghost function SumSet(entries: set<(HandId, Stats)>): Stats
    decreases entries
  {
    if entries == {} then ZERO
    else
      var e :| e in entries;
      Plus(SumSet(entries - {e}), e.1)
  }

  lemma PlusSwap(a: Stats, b: Stats, c: Stats)
    ensures Plus(Plus(a, b), c) == Plus(Plus(a, c), b)
  {
  }

  lemma {:induction false} SumSetRemove(entries: set<(HandId, Stats)>, e: (HandId, Stats))
    requires e in entries
    ensures SumSet(entries) == Plus(SumSet(entries - {e}), e.1)
    decreases entries
  {
    var f :| f in entries && SumSet(entries) == Plus(SumSet(entries - {f}), f.1);
    if f != e {
      SumSetRemove(entries - {f}, e);
      SumSetRemove(entries - {e}, f);
      assert entries - {e} - {f} == entries - {f} - {e};
      assert SumSet(entries - {f}) == Plus(SumSet(entries - {f} - {e}), e.1);
      assert SumSet(entries - {e}) == Plus(SumSet(entries - {f} - {e}), f.1);
      PlusSwap(SumSet(entries - {f} - {e}), e.1, f.1);
    }
  }

  ghost function Entries(log: seq<(HandId, Stats)>): set<(HandId, Stats)> { set e | e in log }

  lemma {:induction false} SumIsSet(log: seq<(HandId, Stats)>)
    requires Once(log)
    ensures Sum(log) == SumSet(Entries(log))
    decreases |log|
  {
    if log != [] {
      var n := |log| - 1;
      SumIsSet(log[..n]);
      assert log == log[..n] + [log[n]];
      assert log[n] !in log[..n];
      assert Entries(log) - {log[n]} == Entries(log[..n]);
      SumSetRemove(Entries(log), log[n]);
    }
  }

  // When every redelivery is timely, the counters are the sum over the distinct
  // hands applied, whatever the order, the repeats and the interleaving.
  lemma {:induction false} CountersAreExact(actions: seq<Action>)
    requires Timely(FRESH, actions)
    ensures var w := Run(FRESH, actions);
      Once(w.log) && w.row.stats == SumSet(Entries(w.log))
  {
    hide Run, Step, Timely;
    RunKeeps(FRESH, actions);
    TimelyCountsOnce(FRESH, actions);
    SumIsSet(Run(FRESH, actions).log);
  }

  // So two histories that applied the same hands agree on every counter.
  lemma {:induction false} OrderDoesNotMatter(a: seq<Action>, b: seq<Action>)
    requires Timely(FRESH, a) && Timely(FRESH, b)
    requires Entries(Run(FRESH, a).log) == Entries(Run(FRESH, b).log)
    ensures Run(FRESH, a).row.stats == Run(FRESH, b).row.stats
  {
    CountersAreExact(a);
    CountersAreExact(b);
  }

  function SumBy(log: seq<(HandId, Stats)>, field: Stats -> int): int {
    if log == [] then 0 else SumBy(log[..|log| - 1], field) + field(log[|log| - 1].1)
  }

  lemma {:induction false} SumByIs(log: seq<(HandId, Stats)>, field: Stats -> int)
    requires field(ZERO) == 0 && forall a, b :: field(Plus(a, b)) == field(a) + field(b)
    ensures field(Sum(log)) == SumBy(log, field)
    decreases |log|
  {
    if log != [] { SumByIs(log[..|log| - 1], field); }
  }

  // Each counter is the sum of that same counter of the hands applied.
  lemma {:induction false} CountersAreSums(actions: seq<Action>)
    ensures var w := Run(FRESH, actions);
      && w.row.stats.hands == SumBy(w.log, (s: Stats) => s.hands)
      && w.row.stats.winsLow == SumBy(w.log, (s: Stats) => s.winsLow)
      && w.row.stats.winsHigh == SumBy(w.log, (s: Stats) => s.winsHigh)
      && w.row.stats.ties == SumBy(w.log, (s: Stats) => s.ties)
      && w.row.stats.headsUpHands == SumBy(w.log, (s: Stats) => s.headsUpHands)
      && w.row.stats.netLow == SumBy(w.log, (s: Stats) => s.netLow)
      && w.row.stats.netHigh == SumBy(w.log, (s: Stats) => s.netHigh)
  {
    assert Inv(FRESH);
    hide Run, SumBy, Sum;
    RunKeeps(FRESH, actions);
    var log := Run(FRESH, actions).log;
    SumByIs(log, (s: Stats) => s.hands);
    SumByIs(log, (s: Stats) => s.winsLow);
    SumByIs(log, (s: Stats) => s.winsHigh);
    SumByIs(log, (s: Stats) => s.ties);
    SumByIs(log, (s: Stats) => s.headsUpHands);
    SumByIs(log, (s: Stats) => s.netLow);
    SumByIs(log, (s: Stats) => s.netHigh);
  }

  // A call that reported success has its hand in the history.
  ghost predicate Recorded(w: World, t: ThreadId, hand: HandId) {
    t in w.threads && match w.threads[t]
      case Applying(h, _) => h == hand
      case Pruning(h, _) => h == hand && hand in Ids(w.log)
      case Done(ok, _) => ok ==> hand in Ids(w.log)
  }

  lemma {:induction false} SuccessIsRecorded(w: World, t: ThreadId, hand: HandId, actions: seq<Action>)
    requires Inv(w) && Recorded(w, t, hand)
    ensures Recorded(Run(w, actions), t, hand)
    decreases |actions|
  {
    hide Step, Inv, Recorded;
    if actions != [] {
      var n := |actions| - 1;
      SuccessIsRecorded(w, t, hand, actions[..n]);
      RunKeeps(w, actions[..n]);
      RecordedStep(Run(w, actions[..n]), t, hand, actions[n]);
    }
  }

  lemma RecordedStep(w: World, t: ThreadId, hand: HandId, a: Action)
    requires Inv(w) && Recorded(w, t, hand)
    ensures Recorded(Step(w, a), t, hand)
  {
    hide Sum, Ids, Stale, Newer;
    GuardedIsSubset(w.row.applied, Ids(w.log));
    if a.Go? && a.t in w.threads && Takes(w.row, w.threads[a.t], a.reply) {
      IdsLast(w.log, (w.threads[a.t].hand, w.threads[a.t].delta));
    }
  }

  // ---------- A run that counts a hand twice ----------

  function Range(k: HandId, n: nat): set<HandId> { if n == 0 then {} else Range(k, n - 1) + {k + n - 1} }

  lemma {:induction false} RangeSize(k: HandId, n: nat)
    ensures |Range(k, n)| == n && forall h :: h in Range(k, n) <==> k <= h < k + n
  {
    if n > 0 { RangeSize(k, n - 1); }
  }

  function Times(delta: Stats, n: nat): Stats { if n == 0 then ZERO else Plus(Times(delta, n - 1), delta) }

  lemma TimesNext(delta: Stats, n: nat)
    ensures Times(delta, n + 1) == Plus(Times(delta, n), delta)
  {
  }

  // n consecutive hands from k on, each delivered and applied.
  function Deliveries(k: HandId, delta: Stats, n: nat): seq<Action> {
    if n == 0 then [] else Deliveries(k, delta, n - 1) + [Deliver(n - 1, k + n - 1, delta), Go(n - 1, Landed)]
  }

  lemma RunTwo(w: World, actions: seq<Action>, a: Action, b: Action)
    ensures Run(w, actions + [a, b]) == Step(Step(Run(w, actions), a), b)
    ensures Run(w, []) == w
  {
    hide Step;
    var all := actions + [a, b];
    assert all[..|all| - 1] == actions + [a];
    assert (actions + [a])[..|actions|] == actions;
  }

  // What has been applied and counted after n hands, and which calls there were.
  ghost predicate AfterHands(w: World, k: HandId, delta: Stats, n: nat) {
    && w.row == Row(Times(delta, n), Range(k, n))
    && Ids(w.log) == Range(k, n) && |w.log| == n && Once(w.log)
    && forall t :: t in w.threads ==> t < n
  }

  lemma OneMoreHand(w: World, k: HandId, delta: Stats, n: nat)
    requires AfterHands(w, k, delta, n)
    ensures var x := Step(Step(w, Deliver(n, k + n, delta)), Go(n, Landed));
      && AfterHands(x, k, delta, n + 1) && n in x.threads
      && x.threads[n] == (if n + 1 > CAP then Pruning(k + n, Range(k, n + 1)) else Done(true, {}))
  {
    hide Ids, Once, Times, Range, Stale, Plus;
    TimesNext(delta, n);
    RangeNext(k, n);
    IdsLast(w.log, (k + n, delta));
    OnceMore(w.log, (k + n, delta));
    var w1 := Step(w, Deliver(n, k + n, delta));
    assert w1.threads[n] == Applying(k + n, delta) && w1.row == w.row && w1.log == w.log;
    assert Takes(w1.row, w1.threads[n], Landed);
  }

  lemma RangeNext(k: HandId, n: nat)
    ensures Range(k, n) + {k + n} == Range(k, n + 1) && k + n !in Range(k, n) && |Range(k, n + 1)| == n + 1
  {
    RangeSize(k, n);
    RangeSize(k, n + 1);
  }

  lemma {:induction false} FirstTwelve(k: HandId, delta: Stats, n: nat)
    requires n <= CAP
    ensures AfterHands(Run(FRESH, Deliveries(k, delta, n)), k, delta, n)
  {
    hide Step, AfterHands, Run;
    if n == 0 {
      NoHands(k, delta);
    } else {
      var before := Deliveries(k, delta, n - 1);
      FirstTwelve(k, delta, n - 1);
      RunTwo(FRESH, before, Deliver(n - 1, k + n - 1, delta), Go(n - 1, Landed));
      OneMoreHand(Run(FRESH, before), k, delta, n - 1);
    }
  }

  lemma NoHands(k: HandId, delta: Stats)
    ensures AfterHands(Run(FRESH, []), k, delta, 0)
  {
  }

  // The prune after the thirteenth hand forgets the first five.
  lemma PruneForgets(k: HandId)
    ensures Range(k, 13) - Stale(Range(k, 13), k + 12) == Range(k + 5, 8)
  {
    hide Range;
    RangeSize(k, 13);
    RangeSize(k + 5, 8);
    forall h | h in Range(k, 13)
      ensures Newer(Range(k, 13), h) == k + 12 - h
    {
      RangeSize(h + 1, k + 12 - h);
      assert (set g | g in Range(k, 13) && g > h) == Range(h + 1, k + 12 - h);
    }
  }

  // Thirteen hands, the prune, and the first hand delivered again.
  function Redelivered(k: HandId, delta: Stats): seq<Action> {
    Deliveries(k, delta, 12) + [Deliver(12, k + 12, delta), Go(12, Landed)]
    + [Go(12, Landed), Deliver(13, k, delta)] + [Go(13, Landed), Crash(13)]
  }

  // For any first hand and any delta: thirteen hands were played, and the counters
  // hold fourteen.
  lemma FourteenCounted(k: HandId, delta: Stats)
    ensures var w := Run(FRESH, Redelivered(k, delta));
      && Ids(w.log) == Range(k, 13) && |Ids(w.log)| == 13
      && |w.log| == 14 && !Once(w.log)
      && w.row.stats == Times(delta, 14)
  {
    hide Step, AfterHands, Run, Deliveries, Ids, Once, Times, Range;
    var twelve := Deliveries(k, delta, 12);
    var thirteen := twelve + [Deliver(12, k + 12, delta), Go(12, Landed)];
    FirstTwelve(k, delta, 12);
    RunTwo(FRESH, twelve, Deliver(12, k + 12, delta), Go(12, Landed));
    OneMoreHand(Run(FRESH, twelve), k, delta, 12);
    RunTwo(FRESH, thirteen, Go(12, Landed), Deliver(13, k, delta));
    RunTwo(FRESH, thirteen + [Go(12, Landed), Deliver(13, k, delta)], Go(13, Landed), Crash(13));
    CountedAgain(Run(FRESH, thirteen), k, delta);
  }

  lemma CountedAgain(w: World, k: HandId, delta: Stats)
    requires AfterHands(w, k, delta, 13) && 12 in w.threads && w.threads[12] == Pruning(k + 12, Range(k, 13))
    ensures var x := Step(Step(Step(Step(w, Go(12, Landed)), Deliver(13, k, delta)), Go(13, Landed)), Crash(13));
      && Ids(x.log) == Range(k, 13) && |Ids(x.log)| == 13
      && |x.log| == 14 && !Once(x.log)
      && x.row.stats == Times(delta, 14)
  {
    hide Ids, Once, Stale, Range, Times;
    PruneForgets(k);
    RangeSize(k, 13);
    RangeSize(k + 5, 8);
    TimesNext(delta, 13);
    IdsLast(w.log, (k, delta));
    OnceMore(w.log, (k, delta));
    assert Range(k, 13) + {k} == Range(k, 13);
    var x1 := Step(w, Go(12, Landed));
    assert x1.row == Row(Times(delta, 13), Range(k + 5, 8)) && x1.log == w.log;
    var x2 := Step(x1, Deliver(13, k, delta));
    assert x2.threads[13] == Applying(k, delta);
    assert k !in x2.row.applied;
  }
}
