// One player's achievement counters: a hand's deltas applied once across the
// fleet, on a row that the first hand creates out of older per-key rows.
module AchievementProgress {
  import opened Sums
  import opened Replies
  import opened Tiers

  type ThreadId = nat
  type HandId = nat

  // Increments and overwrites of one hand; a hand without an id cannot be gated.
  datatype Delta = Delta(hand: Option<HandId>, adds: Counts, sets: Counts)

  predicate Valid(d: Delta) { d.adds.Keys !! d.sets.Keys && forall k :: k in d.adds ==> d.adds[k] > 0 }

  // `legacy` are the per-key rows of before; nobody writes them any more.
  datatype Shared = Shared(row: Option<Counts>, legacy: Counts, guards: set<HandId>)

  function Apply(counts: Counts, d: Delta): Counts {
    map k | k in counts.Keys + d.adds.Keys + d.sets.Keys ::
      if k in d.sets then d.sets[k] else Get(counts, k) + Get(d.adds, k)
  }

  // Each touched counter before the write, by undoing the write; an overwritten
  // one is reported as if it had always had its new value.
  function PreviousOf(current: Counts, d: Delta): Counts {
    map k | k in d.adds.Keys + d.sets.Keys ::
      if k in d.sets then Get(current, k) else Get(current, k) - d.adds[k]
  }

  datatype Result = Skipped | Reported(previous: Counts, current: Counts) | Error

  datatype Pc =
    | Claiming(d: Delta)
    | Updating(d: Delta)
    | ReadingLegacy(d: Delta)
    | Seeding(d: Delta, legacy: Counts)
    | Racing(d: Delta)
    | Done(result: Result)

  function Reports(counts: Counts, d: Delta): Pc { Done(Reported(PreviousOf(counts, d), counts)) }

  function Enter(d: Delta): Pc {
    if !Valid(d) then Done(Error)
    else if d.adds == map[] && d.sets == map[] then Done(Reported(map[], map[]))
    else Updating(d)
  }

  function OnClaiming(s: Shared, d: Delta, reply: Reply): (Shared, Pc) {
    if d.hand.None? then (s, Enter(d))
    else if reply == Refused then (s, Done(Error))
    else if d.hand.value in s.guards then (s, Done(Skipped))
    else (s.(guards := s.guards + {d.hand.value}), if reply == Landed then Enter(d) else Done(Error))
  }

  function Write(s: Shared, counts: Counts, reply: Reply, d: Delta): (Shared, Pc) {
    (s.(row := Some(counts)), if reply == Landed then Reports(counts, d) else Done(Error))
  }

  function OnUpdating(s: Shared, d: Delta, reply: Reply): (Shared, Pc) {
    if reply == Refused then (s, Done(Error))
    else if s.row.None? then (s, ReadingLegacy(d))
    else Write(s, Apply(s.row.value, d), reply, d)
  }

  function OnSeeding(s: Shared, d: Delta, legacy: Counts, reply: Reply): (Shared, Pc) {
    if reply == Refused then (s, Done(Error))
    else if s.row.Some? then (s, Racing(d))
    else Write(s, Apply(legacy, d), reply, d)
  }

  function OnRacing(s: Shared, d: Delta, reply: Reply): (Shared, Pc) {
    if reply == Refused then (s, Done(Error))
    else Write(s, Apply(if s.row.Some? then s.row.value else map[], d), reply, d)
  }

  function Advance(s: Shared, pc: Pc, reply: Reply): (Shared, Pc) {
    match pc
    case Claiming(d) => OnClaiming(s, d, reply)
    case Updating(d) => OnUpdating(s, d, reply)
    case ReadingLegacy(d) => (s, if reply == Landed then Seeding(d, s.legacy) else Done(Error))
    case Seeding(d, legacy) => OnSeeding(s, d, legacy, reply)
    case Racing(d) => OnRacing(s, d, reply)
    case Done(_) => (s, pc)
  }

  // A call that gets every answer errs only on an invalid delta, is skipped only for a
  // hand that is in the guards, and reports no write it did not hear of.
  lemma AnswersAreHonest(s: Shared, pc: Pc, reply: Reply)
    requires !pc.Done?
    ensures var next := Advance(s, pc, reply).1;
      && (next == Done(Error) && Valid(pc.d) ==> reply != Landed)
      && (next == Done(Skipped) <==> pc.Claiming? && pc.d.hand.Some? && reply != Refused && pc.d.hand.value in s.guards)
      && (reply != Landed && !pc.Claiming? ==> !(next.Done? && next.result.Reported?))
      && (reply != Landed && pc.Claiming? && pc.d.hand.Some? ==> next == Done(Error) || next == Done(Skipped))
  {
  }

  // The write this step commits, if any.
  predicate Commits(s: Shared, pc: Pc, reply: Reply) {
    reply != Refused && ((pc.Updating? && s.row.Some?) || (pc.Seeding? && s.row.None?) || pc.Racing?)
  }

  function Before(s: Shared): Counts { if s.row.Some? then s.row.value else s.legacy }

  // History: who moved the counters, with what, from where.
  datatype Entry = Entry(t: ThreadId, d: Delta, before: Counts)

  datatype World = World(shared: Shared, log: seq<Entry>, threads: map<ThreadId, Pc>)

  datatype Action =
    | Start(t: ThreadId, d: Delta)
    | Go(t: ThreadId, reply: Reply)
    | Crash(t: ThreadId)

  function Step(w: World, a: Action): World {
    match a
    case Start(t, d) => if t in w.threads then w else w.(threads := w.threads[t := Claiming(d)])
    case Go(t, reply) =>
      if t !in w.threads then w
      else
        var pc := w.threads[t];
        var x := Advance(w.shared, pc, reply);
        World(x.0, if Commits(w.shared, pc, reply) then w.log + [Entry(t, pc.d, Before(w.shared))] else w.log, w.threads[t := x.1])
    case Crash(t) =>
      if t in w.threads && !w.threads[t].Done? then w.(threads := w.threads[t := Done(Error)]) else w
  }

  function Run(w: World, actions: seq<Action>): World
    decreases |actions|
  {
    if actions == [] then w else Step(Run(w, actions[..|actions| - 1]), actions[|actions| - 1])
  }

  // ---------- Invariant ----------

  function After(e: Entry): Counts { Apply(e.before, e.d) }

  // Each write starts from exactly where the one before it ended.
  ghost predicate Chained(start: Counts, log: seq<Entry>) {
    && (log != [] ==> log[0].before == start)
    && (forall n :: 0 < n < |log| ==> log[n].before == After(log[n - 1]))
    && (forall n :: 0 <= n < |log| ==> Valid(log[n].d))
  }

  function Final(start: Counts, log: seq<Entry>): Counts {
    if log == [] then start else After(log[|log| - 1])
  }

  predicate Live(pc: Pc) { pc.Updating? || pc.ReadingLegacy? || pc.Seeding? || pc.Racing? }

  // The gated hand a call may still write.
  function Holds(pc: Pc): Option<HandId> { if Live(pc) then pc.d.hand else None }

  ghost predicate GateOk(w: World) {
    && (forall n :: 0 <= n < |w.log| && w.log[n].d.hand.Some? ==> w.log[n].d.hand.value in w.shared.guards)
    && (forall m, n :: 0 <= m < n < |w.log| && w.log[m].d.hand.Some? ==> w.log[m].d.hand != w.log[n].d.hand)
    && (forall t :: t in w.threads && Holds(w.threads[t]).Some? ==> Holds(w.threads[t]).value in w.shared.guards)
    && (forall t, n :: t in w.threads && Holds(w.threads[t]).Some? && 0 <= n < |w.log| ==>
          w.log[n].d.hand != Holds(w.threads[t]))
    && (forall t, u :: t in w.threads && u in w.threads && t != u && Holds(w.threads[t]).Some? ==>
          Holds(w.threads[t]) != Holds(w.threads[u]))
  }

  ghost predicate PcOk(w: World, t: ThreadId, pc: Pc) {
    match pc
    case Claiming(_) => forall n :: 0 <= n < |w.log| ==> w.log[n].t != t
    case Done(Reported(previous, current)) =>
      (previous == map[] && current == map[]) ||
      exists n :: 0 <= n < |w.log| && w.log[n].t == t && current == After(w.log[n]) && previous == PreviousOf(current, w.log[n].d)
    case Done(_) => true
    case Seeding(d, legacy) =>
      Valid(d) && legacy == w.shared.legacy && forall n :: 0 <= n < |w.log| ==> w.log[n].t != t
    case Racing(d) => Valid(d) && w.shared.row.Some? && forall n :: 0 <= n < |w.log| ==> w.log[n].t != t
    case _ => Valid(pc.d) && forall n :: 0 <= n < |w.log| ==> w.log[n].t != t
  }

  ghost predicate RowOk(start: Counts, w: World) {
    && Chained(start, w.log)
    && Before(w.shared) == Final(start, w.log)
    && (forall m, n :: 0 <= m < n < |w.log| ==> w.log[m].t != w.log[n].t)
    && (forall n :: 0 <= n < |w.log| ==> w.log[n].t in w.threads)
  }

  ghost predicate Inv(start: Counts, w: World) {
    RowOk(start, w) && GateOk(w) && forall t :: t in w.threads ==> PcOk(w, t, w.threads[t])
  }

  lemma CommitExtends(start: Counts, log: seq<Entry>, e: Entry)
    requires Chained(start, log) && e.before == Final(start, log) && Valid(e.d)
    ensures Chained(start, log + [e]) && Final(start, log + [e]) == After(e)
  {
    hide Apply, Valid;
  }

  lemma CommitRow(start: Counts, w: World, t: ThreadId, reply: Reply)
    requires Inv(start, w) && t in w.threads && Commits(w.shared, w.threads[t], reply)
    ensures RowOk(start, Step(w, Go(t, reply)))
  {
    hide Apply, Valid, GateOk;
    CommitExtends(start, w.log, Entry(t, w.threads[t].d, Before(w.shared)));
  }

  lemma CommitGate(start: Counts, w: World, t: ThreadId, reply: Reply)
    requires Inv(start, w) && t in w.threads && Commits(w.shared, w.threads[t], reply)
    ensures GateOk(Step(w, Go(t, reply)))
  {
    hide Apply, Valid, RowOk, PreviousOf, PcOk;
  }

  lemma CommitPcs(start: Counts, w: World, t: ThreadId, reply: Reply)
    requires Inv(start, w) && t in w.threads && Commits(w.shared, w.threads[t], reply)
    ensures var w' := Step(w, Go(t, reply)); forall u :: u in w'.threads ==> PcOk(w', u, w'.threads[u])
  {
    hide Apply, Valid, GateOk, PreviousOf;
    var w' := Step(w, Go(t, reply));
    assert w'.log[|w.log|] == Entry(t, w.threads[t].d, Before(w.shared));
    forall u | u in w'.threads
      ensures PcOk(w', u, w'.threads[u])
    {
      if u != t { PcStable(w, w', u, w.threads[u], t); }
    }
  }

  lemma PcStable(w: World, w': World, u: ThreadId, pc: Pc, t: ThreadId)
    requires PcOk(w, u, pc) && u != t && w'.shared.legacy == w.shared.legacy
    requires w.shared.row.Some? ==> w'.shared.row.Some?
    requires w'.log == w.log || (|w'.log| == |w.log| + 1 && w'.log[..|w.log|] == w.log && w'.log[|w.log|].t == t)
    ensures PcOk(w', u, pc)
  {
    hide Apply, Valid, PreviousOf;
    assert forall n :: 0 <= n < |w.log| ==> w'.log[n] == w'.log[..|w.log|][n];
    if pc.Done? && pc.result.Reported? && pc.result != Reported(map[], map[]) {
      var n :| 0 <= n < |w.log| && w.log[n].t == u && pc.result.current == After(w.log[n])
        && pc.result.previous == PreviousOf(pc.result.current, w.log[n].d);
      assert w'.log[n] == w.log[n];
    }
  }

  // A call keeps, drops or newly claims its hand.
  lemma GateMoves(w: World, t: ThreadId, guards: set<HandId>, pc: Pc)
    requires GateOk(w) && t in w.threads && w.shared.guards <= guards
    requires var h := Holds(pc);
      h.None? || h == Holds(w.threads[t]) || (h.value in guards && h.value !in w.shared.guards)
    ensures GateOk(w.(shared := w.shared.(guards := guards), threads := w.threads[t := pc]))
  {
    hide Live;
  }

  lemma QuietMoves(s: Shared, pc: Pc, reply: Reply)
    requires !Commits(s, pc, reply)
    ensures var x := Advance(s, pc, reply);
      && x.0 == s.(guards := x.0.guards) && s.guards <= x.0.guards
      && (Holds(x.1).None? || Holds(x.1) == Holds(pc) || (Holds(x.1).value in x.0.guards && Holds(x.1).value !in s.guards))
  {
    hide Apply, PreviousOf, Valid;
  }

  lemma QuietPc(w: World, t: ThreadId, reply: Reply)
    requires t in w.threads && PcOk(w, t, w.threads[t]) && !Commits(w.shared, w.threads[t], reply)
    ensures var x := Advance(w.shared, w.threads[t], reply);
      PcOk(w.(shared := x.0, threads := w.threads[t := x.1]), t, x.1)
  {
    hide Apply, PreviousOf, Valid;
  }

  lemma QuietKeeps(start: Counts, w: World, t: ThreadId, reply: Reply)
    requires Inv(start, w) && t in w.threads && !Commits(w.shared, w.threads[t], reply)
    ensures Inv(start, Step(w, Go(t, reply)))
  {
    var x := Advance(w.shared, w.threads[t], reply);
    QuietMoves(w.shared, w.threads[t], reply);
    QuietPc(w, t, reply);
    GateMoves(w, t, x.0.guards, x.1);
    hide Advance, Commits, Apply, GateOk, PreviousOf, Chained, PcOk;
    var w' := Step(w, Go(t, reply));
    forall u | u in w'.threads
      ensures PcOk(w', u, w'.threads[u])
    {
      if u != t { PcStable(w, w', u, w.threads[u], t); }
    }
  }

  lemma StepKeeps(start: Counts, w: World, a: Action)
    requires Inv(start, w)
    ensures Inv(start, Step(w, a))
  {
    if a.Go? && a.t in w.threads {
      hide Step, RowOk, GateOk, PcOk, Commits;
      if Commits(w.shared, w.threads[a.t], a.reply) {
        CommitRow(start, w, a.t, a.reply);
        CommitGate(start, w, a.t, a.reply);
        CommitPcs(start, w, a.t, a.reply);
      } else {
        QuietKeeps(start, w, a.t, a.reply);
      }
    } else {
      OtherKeeps(start, w, a);
    }
  }

  lemma OtherKeeps(start: Counts, w: World, a: Action)
    requires Inv(start, w) && !(a.Go? && a.t in w.threads)
    ensures Inv(start, Step(w, a))
  {
    hide Advance, Apply, PreviousOf, Valid, Chained, GateOk, PcOk;
    var w' := Step(w, a);
    if w' != w {
      if a.t in w.threads {
        GateMoves(w, a.t, w.shared.guards, Done(Error));
      } else {
        GateStarts(w, a.t, a.d);
      }
      forall u | u in w'.threads
        ensures PcOk(w', u, w'.threads[u])
      {
        if u != a.t { PcStable(w, w', u, w.threads[u], a.t); } else { FreshPc(start, w, w', a); }
      }
    }
  }

  lemma GateStarts(w: World, t: ThreadId, d: Delta)
    requires GateOk(w) && t !in w.threads
    ensures GateOk(w.(threads := w.threads[t := Claiming(d)]))
  {
  }

  lemma FreshPc(start: Counts, w: World, w': World, a: Action)
    requires RowOk(start, w) && w' == Step(w, a) && w' != w && !a.Go?
    ensures a.t in w'.threads && PcOk(w', a.t, w'.threads[a.t])
  {
    hide Chained, Apply;
  }

  lemma {:induction false} RunKeeps(start: Counts, w: World, actions: seq<Action>)
    requires Inv(start, w)
    ensures Inv(start, Run(w, actions))
    decreases |actions|
  {
    hide Step, Inv;
    if actions != [] {
      RunKeeps(start, w, actions[..|actions| - 1]);
      StepKeeps(start, Run(w, actions[..|actions| - 1]), actions[|actions| - 1]);
    }
  }

  // A player whose row may or may not exist yet.
  function Fresh(row: Option<Counts>, legacy: Counts): World {
    World(Shared(row, legacy, {}), [], map[])
  }

  // ---------- What holds of every run ----------

  // However many instances run a hand, its deltas reach the counters once.
  lemma HandCountedOnce(row: Option<Counts>, legacy: Counts, actions: seq<Action>)
    ensures var w := Run(Fresh(row, legacy), actions);
      forall m, n :: 0 <= m < n < |w.log| && w.log[m].d.hand.Some? ==> w.log[m].d.hand != w.log[n].d.hand
  {
    hide Run;
    RunKeeps(Before(Shared(row, legacy, {})), Fresh(row, legacy), actions);
  }

  ghost predicate OnlyAdded(log: seq<Entry>, k: Key) { forall n :: 0 <= n < |log| ==> k !in log[n].d.sets }

  function Added(log: seq<Entry>, k: Key): int {
    if log == [] then 0 else Added(log[..|log| - 1], k) + Get(log[|log| - 1].d.adds, k)
  }

  lemma ChainPrefix(start: Counts, log: seq<Entry>)
    requires Chained(start, log) && log != []
    ensures Chained(start, log[..|log| - 1])
    ensures log[|log| - 1].before == Final(start, log[..|log| - 1])
  {
  }

  lemma StepOf(e: Entry, k: Key)
    requires k !in e.d.sets && Valid(e.d)
    ensures Get(After(e), k) == Get(e.before, k) + Get(e.d.adds, k) >= Get(e.before, k)
  {
  }

  lemma {:induction false} CounterLaw(start: Counts, log: seq<Entry>, k: Key)
    requires Chained(start, log) && OnlyAdded(log, k)
    ensures Get(Final(start, log), k) == Get(start, k) + Added(log, k) >= Get(start, k)
    decreases |log|
  {
    hide Apply;
    if log != [] {
      ChainPrefix(start, log);
      CounterLaw(start, log[..|log| - 1], k);
      StepOf(log[|log| - 1], k);
    }
  }

  // Entry n carries the counter over the threshold.
  ghost predicate CrossedBy(log: seq<Entry>, k: Key, threshold: int, n: nat)
    requires n < |log|
  {
    Get(log[n].before, k) < threshold <= Get(After(log[n]), k)
  }

  lemma {:induction false} SomeoneCrosses(start: Counts, log: seq<Entry>, k: Key, threshold: int)
    requires Chained(start, log) && OnlyAdded(log, k)
    requires Get(start, k) < threshold <= Get(Final(start, log), k)
    ensures exists n :: 0 <= n < |log| && CrossedBy(log, k, threshold, n)
    decreases |log|
  {
    hide Apply;
    var last := |log| - 1;
    var before := log[..last];
    ChainPrefix(start, log);
    if Get(Final(start, before), k) < threshold {
      assert CrossedBy(log, k, threshold, last);
    } else {
      SomeoneCrosses(start, before, k, threshold);
      var n :| 0 <= n < |before| && CrossedBy(before, k, threshold, n);
      assert CrossedBy(log, k, threshold, n);
    }
  }

  lemma {:induction false} NoLaterBelow(start: Counts, log: seq<Entry>, k: Key, m: nat, n: nat)
    requires Chained(start, log) && OnlyAdded(log, k) && m < n < |log|
    ensures Get(After(log[m]), k) <= Get(log[n].before, k)
    decreases n
  {
    hide Apply;
    if m < n - 1 {
      NoLaterBelow(start, log, k, m, n - 1);
      StepOf(log[n - 1], k);
    }
  }

  // The intervals the calls report tile the whole range: every threshold in it
  // is crossed by exactly one call.
  lemma CrossedExactlyOnce(start: Counts, log: seq<Entry>, k: Key, threshold: int)
    requires Chained(start, log) && OnlyAdded(log, k)
    ensures (exists n :: 0 <= n < |log| && CrossedBy(log, k, threshold, n))
      <==> Get(start, k) < threshold <= Get(Final(start, log), k)
    ensures forall m, n :: 0 <= m < n < |log| && CrossedBy(log, k, threshold, m) ==> !CrossedBy(log, k, threshold, n)
  {
    hide Apply;
    if Get(start, k) < threshold <= Get(Final(start, log), k) { SomeoneCrosses(start, log, k, threshold); }
    if n :| 0 <= n < |log| && CrossedBy(log, k, threshold, n) { CrossingInRange(start, log, k, threshold, n); }
    forall m, n | 0 <= m < n < |log| && CrossedBy(log, k, threshold, m)
      ensures !CrossedBy(log, k, threshold, n)
    {
      NoLaterBelow(start, log, k, m, n);
    }
  }

  lemma CrossingInRange(start: Counts, log: seq<Entry>, k: Key, threshold: int, n: nat)
    requires Chained(start, log) && OnlyAdded(log, k) && n < |log| && CrossedBy(log, k, threshold, n)
    ensures Get(start, k) < threshold <= Get(Final(start, log), k)
  {
    hide Apply;
    var last := |log| - 1;
    if n > 0 {
      StepOf(log[0], k);
      NoLaterBelow(start, log, k, 0, n);
    }
    if n < last {
      NoLaterBelow(start, log, k, n, last);
      StepOf(log[last], k);
    }
  }

  // The stars of the calls so far.
  function EarnedBy(tiers: seq<Tier>, log: seq<Entry>, k: Key): nat {
    if log == [] then 0
    else
      var e := log[|log| - 1];
      Max(EarnedBy(tiers, log[..|log| - 1], k), StarsCrossed(tiers, Get(e.before, k), Get(After(e), k)))
  }

  // The best of what the player started with and of everything the calls report
  // is what the summary shows.
  lemma {:induction false} StarsAddUp(tiers: seq<Tier>, start: Counts, log: seq<Entry>, k: Key)
    requires Chained(start, log) && OnlyAdded(log, k)
    ensures Max(StarsAt(tiers, Get(start, k)), EarnedBy(tiers, log, k)) == StarsAt(tiers, Get(Final(start, log), k))
    decreases |log|
  {
    hide Apply, StarsAt, StarsCrossed;
    if log != [] {
      var e := log[|log| - 1];
      ChainPrefix(start, log);
      StarsAddUp(tiers, start, log[..|log| - 1], k);
      StepOf(e, k);
      CrossingLaw(tiers, Get(e.before, k), Get(After(e), k));
    }
  }

  // Every run: counters end where they started plus what was added, thresholds
  // are crossed once each, and stars add up, whoever created the row.
  lemma ProgressIsExact(row: Option<Counts>, legacy: Counts, actions: seq<Action>, k: Key, tiers: seq<Tier>, threshold: int)
    ensures var start := if row.Some? then row.value else legacy;
      var w := Run(Fresh(row, legacy), actions);
      var final := Before(w.shared);
      OnlyAdded(w.log, k) ==>
        && Get(final, k) == Get(start, k) + Added(w.log, k)
        && ((exists n :: 0 <= n < |w.log| && CrossedBy(w.log, k, threshold, n)) <==> Get(start, k) < threshold <= Get(final, k))
        && (forall m, n :: 0 <= m < n < |w.log| && CrossedBy(w.log, k, threshold, m) ==> !CrossedBy(w.log, k, threshold, n))
        && StarsAt(tiers, Get(final, k)) == Max(StarsAt(tiers, Get(start, k)), EarnedBy(tiers, w.log, k))
  {
    hide Run, Apply, StarsAt, StarsCrossed, EarnedBy, Added;
    var start := if row.Some? then row.value else legacy;
    var w := Run(Fresh(row, legacy), actions);
    RunKeeps(start, Fresh(row, legacy), actions);
    if OnlyAdded(w.log, k) {
      CounterLaw(start, w.log, k);
      CrossedExactlyOnce(start, w.log, k, threshold);
      StarsAddUp(tiers, start, w.log, k);
    }
  }

  lemma LogIsValid(start: Counts, w: World)
    requires RowOk(start, w)
    ensures forall n :: 0 <= n < |w.log| ==> Valid(w.log[n].d)
  {
    hide Apply, Valid;
  }

  // ---------- Counters that are overwritten too ----------

  // The count after these hands, read off their deltas alone: an overwrite counts
  // for itself, an increment for what it adds.
  function CountAfter(start: int, log: seq<Entry>, k: Key): int {
    if log == [] then start
    else
      var d := log[|log| - 1].d;
      if k in d.sets then d.sets[k]
      else CountAfter(start, log[..|log| - 1], k) + (if k in d.adds then d.adds[k] else 0)
  }

  lemma {:induction false} FinalCount(start: Counts, log: seq<Entry>, k: Key)
    requires Chained(start, log)
    ensures Get(Final(start, log), k) == CountAfter(Get(start, k), log, k)
    decreases |log|
  {
    if log != [] {
      ChainPrefix(start, log);
      FinalCount(start, log[..|log| - 1], k);
    }
  }

  // From the last overwrite on, only increments count; without one, from the start.
  lemma {:induction false} LastSetCounts(start: int, log: seq<Entry>, k: Key, n: nat)
    requires n <= |log| && forall m :: n <= m < |log| ==> k !in log[m].d.sets
    ensures CountAfter(start, log, k) == CountAfter(start, log[..n], k) + Added(log[n..], k)
    ensures n > 0 && k in log[n - 1].d.sets ==> CountAfter(start, log[..n], k) == log[n - 1].d.sets[k]
    ensures n == 0 ==> CountAfter(start, log[..n], k) == start
    decreases |log|
  {
    if n > 0 { assert log[..n][..n - 1] == log[..n - 1] && log[..n][n - 1] == log[n - 1]; }
    if n == |log| {
      assert log[..n] == log && log[n..] == [];
    } else {
      var before := log[..|log| - 1];
      assert before[..n] == log[..n] && log[n..][..|log| - n - 1] == before[n..];
      LastSetCounts(start, before, k, n);
    }
  }

  // Every run and every counter: it ends at the value of the last write that set it
  // plus what was added since, or at its start plus everything if none did.
  lemma CountersAreExact(row: Option<Counts>, legacy: Counts, actions: seq<Action>, k: Key, n: nat)
    ensures var start := if row.Some? then row.value else legacy;
      var w := Run(Fresh(row, legacy), actions);
      && Get(Before(w.shared), k) == CountAfter(Get(start, k), w.log, k)
      && (n <= |w.log| && (forall m :: n <= m < |w.log| ==> k !in w.log[m].d.sets) ==>
            && (n == 0 ==> Get(Before(w.shared), k) == Get(start, k) + Added(w.log, k))
            && (n > 0 && k in w.log[n - 1].d.sets ==>
                  Get(Before(w.shared), k) == w.log[n - 1].d.sets[k] + Added(w.log[n..], k)))
  {
    hide Run, Apply, Added, CountAfter;
    var start := if row.Some? then row.value else legacy;
    var w := Run(Fresh(row, legacy), actions);
    RunKeeps(start, Fresh(row, legacy), actions);
    hide GateOk, PcOk;
    FinalCount(start, w.log, k);
    if n <= |w.log| && (forall m :: n <= m < |w.log| ==> k !in w.log[m].d.sets) {
      LastSetCounts(Get(start, k), w.log, k, n);
      assert w.log[0..] == w.log;
    }
  }

  // What a call is told is the interval its own write covered, so the tiers it
  // announces are those it crossed; an overwritten counter never announces any.
  lemma ReportsAreTrue(start: Counts, w: World, t: ThreadId, k: Key, tiers: seq<Tier>)
    requires Inv(start, w) && t in w.threads && w.threads[t].Done? && w.threads[t].result.Reported?
    ensures var r := w.threads[t].result;
      (r.previous == map[] && r.current == map[]) ||
      exists n :: 0 <= n < |w.log| && w.log[n].t == t
        && (k in w.log[n].d.adds ==>
              && Get(r.previous, k) == Get(w.log[n].before, k) && Get(r.current, k) == Get(After(w.log[n]), k))
        && (k in w.log[n].d.sets ==> StarsCrossed(tiers, Get(r.previous, k), Get(r.current, k)) == 0)
  {
    hide StarsCrossed, GateOk, RowOk;
    LogIsValid(start, w);
    var r := w.threads[t].result;
    if !(r.previous == map[] && r.current == map[]) {
      var n :| 0 <= n < |w.log| && w.log[n].t == t && r.current == After(w.log[n]) && r.previous == PreviousOf(r.current, w.log[n].d);
      NothingCrossed(tiers, Get(r.current, k));
    }
  }

  lemma {:induction false} NothingCrossed(tiers: seq<Tier>, count: int)
    ensures StarsCrossed(tiers, count, count) == 0
  {
    if tiers != [] { NothingCrossed(tiers[..|tiers| - 1], count); }
  }
}
