// Pre-flop tendencies read off a hand's action log, and the counters they feed.
module PokerStats {
  import opened Sums

  type PlayerId = string
  type HandId = nat

  // `frame` is the number of board cards in the entry's public frame, if it has one.
  datatype LogEntry = LogEntry(player: PlayerId, action: string, betting: string, frame: Option<nat>)

  datatype HandMetric = HandMetric(player: PlayerId, vpip: bool, pfr: bool, threeBet: bool, threeBetChance: bool)

  function ActionOf(e: LogEntry): string { if e.betting == "" then e.action else e.betting }

  predicate IsRaise(e: LogEntry) { ActionOf(e) == "raise" || ActionOf(e) == "bet" }

  // An old all-in row without a betting action is voluntary but no raise.
  predicate IsVoluntary(e: LogEntry) {
    ActionOf(e) == "call" || IsRaise(e) || (e.action == "all_in" && e.betting == "")
  }

  predicate IsDecision(e: LogEntry) {
    ActionOf(e) == "fold" || ActionOf(e) == "call" || ActionOf(e) == "check" || IsRaise(e)
  }

  // What the log's words mean: an old all-in row without a betting action was put in
  // freely but is never a raise; with one, the betting action decides.
  lemma WordsOfTheLog(e: LogEntry)
    ensures e.action == "all_in" && e.betting == "" ==> IsVoluntary(e) && !IsRaise(e)
    ensures e.betting == "raise" || e.betting == "bet" ==> IsRaise(e) && IsVoluntary(e) && IsDecision(e)
    ensures e.betting == "" && (e.action == "raise" || e.action == "bet") ==> IsRaise(e) && IsVoluntary(e) && IsDecision(e)
    ensures e.betting == "call" ==> IsVoluntary(e) && IsDecision(e) && !IsRaise(e)
    ensures e.betting == "fold" || e.betting == "check" ==> IsDecision(e) && !IsRaise(e) && !IsVoluntary(e)
    ensures e.betting == "" && e.action == "post_blind" ==> !IsVoluntary(e) && !IsDecision(e)
  {
  }

  predicate ShowsBoard(e: LogEntry) { e.frame.Some? && e.frame.value > 0 }

  // ---------- What the metrics mean ----------

  predicate Plays(ids: seq<PlayerId>, id: PlayerId) { id in ids && id != "" }

  // Where the pre-flop ends: after the first entry that shows a board card.
  function Cut(log: seq<LogEntry>): (n: nat)
    ensures n <= |log|
  {
    if log == [] then 0
    else if ShowsBoard(log[0]) then 1
    else 1 + Cut(log[1..])
  }

  // It is past n entries without a board, and right after the first one with it.
  lemma {:induction false} CutAt(log: seq<LogEntry>, n: nat)
    requires n <= |log| && forall i :: 0 <= i < n ==> !ShowsBoard(log[i])
    ensures Cut(log) >= n
    ensures n < |log| && ShowsBoard(log[n]) ==> Cut(log) == n + 1
    decreases n
  {
    if n > 0 {
      assert forall i :: 0 <= i < n - 1 ==> log[1..][i] == log[i + 1];
      CutAt(log[1..], n - 1);
    }
  }

  function RaisesBefore(ids: seq<PlayerId>, log: seq<LogEntry>, n: nat): nat
    requires n <= |log|
  {
    if n == 0 then 0
    else RaisesBefore(ids, log, n - 1) + (if Plays(ids, log[n - 1].player) && IsRaise(log[n - 1]) then 1 else 0)
  }

  ghost predicate RaisedBefore(log: seq<LogEntry>, id: PlayerId, n: nat)
    requires n <= |log|
  {
    exists i :: 0 <= i < n && log[i].player == id && IsRaise(log[i])
  }

  ghost predicate Volunteered(log: seq<LogEntry>, id: PlayerId, n: nat)
    requires n <= |log|
  {
    exists i :: 0 <= i < n && log[i].player == id && IsVoluntary(log[i])
  }

  // The i-th entry is this player's decision facing somebody else's raise.
  ghost predicate FacesRaise(ids: seq<PlayerId>, log: seq<LogEntry>, id: PlayerId, i: nat)
    requires i < |log|
  {
    log[i].player == id && IsDecision(log[i]) && RaisesBefore(ids, log, i) > 0 && !RaisedBefore(log, id, i)
  }

  // The i-th entry is the second raise of the hand, by other than the first raiser.
  ghost predicate IsThreeBet(ids: seq<PlayerId>, log: seq<LogEntry>, id: PlayerId, i: nat)
    requires i < |log|
  {
    log[i].player == id && IsRaise(log[i]) && RaisesBefore(ids, log, i) == 1 && !RaisedBefore(log, id, i)
  }

  ghost predicate HadChance(ids: seq<PlayerId>, log: seq<LogEntry>, id: PlayerId, n: nat)
    requires n <= |log|
  {
    exists i :: 0 <= i < n && FacesRaise(ids, log, id, i)
  }

  ghost predicate ThreeBet(ids: seq<PlayerId>, log: seq<LogEntry>, id: PlayerId, n: nat)
    requires n <= |log|
  {
    exists i :: 0 <= i < n && IsThreeBet(ids, log, id, i)
  }

  // A player's metrics over the first n entries.
  ghost function MetricAt(ids: seq<PlayerId>, log: seq<LogEntry>, id: PlayerId, n: nat): (m: HandMetric)
    requires n <= |log|
    ensures m.player == id
  {
    HandMetric(id, Volunteered(log, id, n), RaisedBefore(log, id, n), ThreeBet(ids, log, id, n), HadChance(ids, log, id, n))
  }

  // What one more entry by a participant changes about a player.
  lemma MetricNext(ids: seq<PlayerId>, log: seq<LogEntry>, id: PlayerId, n: nat)
    requires n < |log|
    ensures var m, e := MetricAt(ids, log, id, n), log[n];
      MetricAt(ids, log, id, n + 1) ==
      if e.player != id then m
      else HandMetric(id, m.vpip || IsVoluntary(e), m.pfr || IsRaise(e),
        m.threeBet || IsThreeBet(ids, log, id, n), m.threeBetChance || FacesRaise(ids, log, id, n))
  {
    hide IsRaise, IsVoluntary, IsDecision, RaisesBefore;
  }

  // ---------- Reading the log ----------

  method Analyze(ids: seq<PlayerId>, log: seq<LogEntry>) returns (out: seq<HandMetric>)
    ensures forall m :: m in out <==> Plays(ids, m.player) && m == MetricAt(ids, log, m.player, Cut(log))
    ensures forall i, j :: 0 <= i < j < |out| && (forall k, l :: 0 <= k < l < |ids| ==> ids[k] != ids[l]) ==> out[i].player != out[j].player
    ensures forall m :: m in out ==> Consistent(m)
  {
    hide MetricAt, IsRaise, IsVoluntary, IsDecision;
    var metrics: map<PlayerId, HandMetric> := map[];
    for k := 0 to |ids|
      invariant forall id :: id in metrics <==> id in ids[..k] && id != ""
      invariant forall id :: id in metrics ==> metrics[id] == HandMetric(id, false, false, false, false)
    {
      assert ids[..k + 1] == ids[..k] + [ids[k]];
      if ids[k] != "" { metrics := metrics[ids[k] := HandMetric(ids[k], false, false, false, false)]; }
    }
    assert ids[..|ids|] == ids;
    forall id | id in metrics ensures metrics[id] == MetricAt(ids, log, id, 0) { NothingYet(ids, log, id); }
    metrics := Scan(ids, log, metrics);
    out := [];
    for k := 0 to |ids|
      invariant forall m :: m in out <==> m.player in ids[..k] && m.player in metrics && m == metrics[m.player]
      invariant (forall i, j :: 0 <= i < j < |ids| ==> ids[i] != ids[j]) ==> forall i, j :: 0 <= i < j < |out| ==> out[i].player != out[j].player
    {
      assert ids[..k + 1] == ids[..k] + [ids[k]];
      if ids[k] in metrics {
        assert (forall i, j :: 0 <= i < j < |ids| ==> ids[i] != ids[j]) ==> ids[k] !in ids[..k];
        out := out + [metrics[ids[k]]];
      }
    }
    forall m | m in out ensures Consistent(m) { MetricsConsistent(ids, log, m.player, Cut(log)); }
  }

  lemma NothingYet(ids: seq<PlayerId>, log: seq<LogEntry>, id: PlayerId)
    ensures MetricAt(ids, log, id, 0) == HandMetric(id, false, false, false, false)
  {
  }

  method Scan(ids: seq<PlayerId>, log: seq<LogEntry>, start: map<PlayerId, HandMetric>) returns (metrics: map<PlayerId, HandMetric>)
    requires forall id :: id in start <==> Plays(ids, id)
    requires forall id :: id in start ==> start[id] == MetricAt(ids, log, id, 0)
    ensures metrics.Keys == start.Keys
    ensures forall id :: id in metrics ==> metrics[id] == MetricAt(ids, log, id, Cut(log))
  {
    hide MetricAt, IsRaise, IsVoluntary, IsDecision, IsThreeBet, FacesRaise, RaisedBefore, Cut;
    metrics := start;
    var raiseCount := 0;
    var hasRaised: set<PlayerId> := {};
    NobodyRaised(log);
    var n := 0;
    while n < |log|
      invariant 0 <= n <= |log| && forall i :: 0 <= i < n ==> !ShowsBoard(log[i])
      invariant metrics.Keys == start.Keys
      invariant forall id :: id in metrics ==> metrics[id] == MetricAt(ids, log, id, n)
      invariant raiseCount == RaisesBefore(ids, log, n)
      invariant forall id :: id in metrics ==> (id in hasRaised <==> RaisedBefore(log, id, n))
    {
      CutAt(log, n);
      var e := log[n];
      var ends := e.frame.Some? && e.frame.value > 0;
      EntryEffect(ids, log, metrics, n);
      n := n + 1;
      if e.player !in metrics {
        if ends { break; }
        continue;
      }
      var metric := Decide(ids, log, metrics[e.player], n - 1, raiseCount, e.player in hasRaised);
      if IsRaise(e) {
        raiseCount := raiseCount + 1;
        hasRaised := hasRaised + {e.player};
      }
      metrics := metrics[e.player := metric];
      if ends { break; }
    }
    if n == |log| && forall i :: 0 <= i < n ==> !ShowsBoard(log[i]) { CutAt(log, n); }
  }

  // One decision of a participant, given the raises before it.
  method Decide(ids: seq<PlayerId>, log: seq<LogEntry>, m: HandMetric, n: nat, raiseCount: nat, hasRaised: bool) returns (metric: HandMetric)
    requires n < |log| && m.player == log[n].player
    requires raiseCount == RaisesBefore(ids, log, n) && (hasRaised <==> RaisedBefore(log, m.player, n))
    ensures metric == NextMetric(ids, log, m, n)
  {
    hide RaisesBefore, RaisedBefore, IsRaise, IsVoluntary, IsDecision;
    var e := log[n];
    metric := m;
    if IsVoluntary(e) { metric := metric.(vpip := true); }
    if raiseCount > 0 && !hasRaised && IsDecision(e) { metric := metric.(threeBetChance := true); }
    if IsRaise(e) {
      metric := metric.(pfr := true);
      if raiseCount == 1 && !hasRaised { metric := metric.(threeBet := true); }
    }
  }

  lemma EntryEffect(ids: seq<PlayerId>, log: seq<LogEntry>, metrics: map<PlayerId, HandMetric>, n: nat)
    requires n < |log| && forall id :: id in metrics ==> metrics[id] == MetricAt(ids, log, id, n)
    ensures forall id :: id in metrics ==>
      MetricAt(ids, log, id, n + 1) == if id != log[n].player then metrics[id] else NextMetric(ids, log, metrics[id], n)
    ensures forall id :: RaisedBefore(log, id, n + 1) <==> RaisedBefore(log, id, n) || (log[n].player == id && IsRaise(log[n]))
  {
    hide MetricAt, IsRaise, IsVoluntary, IsDecision, RaisesBefore, IsThreeBet, FacesRaise;
    forall id | id in metrics
      ensures MetricAt(ids, log, id, n + 1) == if id != log[n].player then metrics[id] else NextMetric(ids, log, metrics[id], n)
    {
      MetricNext(ids, log, id, n);
    }
  }

  ghost function NextMetric(ids: seq<PlayerId>, log: seq<LogEntry>, m: HandMetric, n: nat): HandMetric
    requires n < |log|
  {
    HandMetric(m.player, m.vpip || IsVoluntary(log[n]), m.pfr || IsRaise(log[n]),
      m.threeBet || IsThreeBet(ids, log, m.player, n), m.threeBetChance || FacesRaise(ids, log, m.player, n))
  }

  lemma NobodyRaised(log: seq<LogEntry>)
    ensures forall id :: !RaisedBefore(log, id, 0)
  {
  }

  // ---------- What every hand's metrics obey ----------

  ghost predicate Consistent(m: HandMetric) {
    (m.threeBet ==> m.threeBetChance && m.pfr) && (m.pfr ==> m.vpip)
  }

  lemma MetricsConsistent(ids: seq<PlayerId>, log: seq<LogEntry>, id: PlayerId, n: nat)
    requires n <= |log|
    ensures Consistent(MetricAt(ids, log, id, n))
  {
    if ThreeBet(ids, log, id, n) {
      var i :| 0 <= i < n && IsThreeBet(ids, log, id, i);
      assert FacesRaise(ids, log, id, i);
    }
    if i :| 0 <= i < n && log[i].player == id && IsRaise(log[i]) { assert IsVoluntary(log[i]); }
  }

  // A hand has one second raise, so one three-bettor.
  lemma OneThreeBettor(ids: seq<PlayerId>, log: seq<LogEntry>, a: PlayerId, b: PlayerId, n: nat)
    requires n <= |log| && Plays(ids, a) && Plays(ids, b)
    requires ThreeBet(ids, log, a, n) && ThreeBet(ids, log, b, n)
    ensures a == b
  {
    hide IsRaise;
    var i :| 0 <= i < n && IsThreeBet(ids, log, a, i);
    var j :| 0 <= j < n && IsThreeBet(ids, log, b, j);
    if i < j { RaisesGrow(ids, log, i, j); }
    if j < i { RaisesGrow(ids, log, j, i); }
  }

  lemma {:induction false} RaisesGrow(ids: seq<PlayerId>, log: seq<LogEntry>, i: nat, j: nat)
    requires i < j <= |log| && Plays(ids, log[i].player) && IsRaise(log[i])
    ensures RaisesBefore(ids, log, i) + 1 <= RaisesBefore(ids, log, j)
    decreases j
  {
    hide IsRaise;
    if i < j - 1 { RaisesGrow(ids, log, i, j - 1); }
  }

  // Nothing after the entry that shows the first board card has any say.
  lemma LaterStreetsDoNotMatter(ids: seq<PlayerId>, log: seq<LogEntry>, later: seq<LogEntry>, id: PlayerId)
    requires later != [] ==> exists i :: 0 <= i < |log| && ShowsBoard(log[i])
    ensures Cut(log + later) == Cut(log)
    ensures MetricAt(ids, log + later, id, Cut(log + later)) == MetricAt(ids, log, id, Cut(log))
  {
    hide IsRaise, IsVoluntary, IsDecision;
    SameCut(log, later);
    forall i | 0 <= i <= Cut(log)
      ensures RaisesBefore(ids, log + later, i) == RaisesBefore(ids, log, i)
      ensures RaisedBefore(log + later, id, i) == RaisedBefore(log, id, i)
    {
      SameRaises(ids, log, later, i);
      SameRaised(log, later, id, i);
    }
    SameMetric(ids, log, later, id, Cut(log));
  }

  lemma SameMetric(ids: seq<PlayerId>, log: seq<LogEntry>, later: seq<LogEntry>, id: PlayerId, n: nat)
    requires n <= |log|
    requires forall i :: 0 <= i <= n ==> RaisesBefore(ids, log + later, i) == RaisesBefore(ids, log, i)
    requires forall i :: 0 <= i <= n ==> RaisedBefore(log + later, id, i) == RaisedBefore(log, id, i)
    ensures MetricAt(ids, log + later, id, n) == MetricAt(ids, log, id, n)
  {
    hide IsRaise, IsVoluntary, IsDecision, RaisesBefore, RaisedBefore;
    var all := log + later;
    assert forall i :: 0 <= i < n ==> all[i] == log[i];
    assert forall i :: 0 <= i < n ==> IsThreeBet(ids, all, id, i) == IsThreeBet(ids, log, id, i);
    assert forall i :: 0 <= i < n ==> FacesRaise(ids, all, id, i) == FacesRaise(ids, log, id, i);
  }

  lemma SameRaised(log: seq<LogEntry>, later: seq<LogEntry>, id: PlayerId, n: nat)
    requires n <= |log|
    ensures RaisedBefore(log + later, id, n) == RaisedBefore(log, id, n)
  {
    hide IsRaise;
    assert forall i :: 0 <= i < n ==> (log + later)[i] == log[i];
  }

  lemma {:induction false} SameRaises(ids: seq<PlayerId>, log: seq<LogEntry>, later: seq<LogEntry>, n: nat)
    requires n <= |log|
    ensures RaisesBefore(ids, log + later, n) == RaisesBefore(ids, log, n)
  {
    hide IsRaise;
    if n > 0 { SameRaises(ids, log, later, n - 1); }
  }

  lemma {:induction false} SameCut(log: seq<LogEntry>, later: seq<LogEntry>)
    requires later != [] ==> exists i :: 0 <= i < |log| && ShowsBoard(log[i])
    ensures Cut(log + later) == Cut(log)
    decreases |log|
  {
    if later == [] {
      assert log + later == log;
    } else if !ShowsBoard(log[0]) {
      var i :| 0 <= i < |log| && ShowsBoard(log[i]);
      assert log[1..][i - 1] == log[i];
      SameCut(log[1..], later);
      assert (log + later)[1..] == log[1..] + later;
    }
  }

  // ---------- Counting hands ----------

  datatype Stats = Stats(hands: nat, vpip: nat, pfr: nat, threeBet: nat, chances: nat)

  function Bit(b: bool): nat { if b then 1 else 0 }

  function Plus(s: Stats, m: HandMetric): Stats {
    Stats(s.hands + 1, s.vpip + Bit(m.vpip), s.pfr + Bit(m.pfr), s.threeBet + Bit(m.threeBet), s.chances + Bit(m.threeBetChance))
  }

  // One delivered hand.
  datatype Delivery = Delivery(hand: HandId, metrics: seq<HandMetric>)

  predicate Named(metrics: seq<HandMetric>) { exists i :: 0 <= i < |metrics| && metrics[i].player != "" }

  // A player's own metric in a hand.
  function MetricOf(metrics: seq<HandMetric>, id: PlayerId): Option<HandMetric> {
    if metrics == [] then None
    else if metrics[|metrics| - 1].player == id && id != "" then Some(metrics[|metrics| - 1])
    else MetricOf(metrics[..|metrics| - 1], id)
  }

  // A player's counters after a history of distinct hands.
  function Tally(history: seq<Delivery>, id: PlayerId): Stats {
    if history == [] then Stats(0, 0, 0, 0, 0)
    else
      With(Tally(history[..|history| - 1], id), MetricOf(history[|history| - 1].metrics, id))
  }

  function HandsWith(history: seq<Delivery>, id: PlayerId): nat {
    if history == [] then 0
    else HandsWith(history[..|history| - 1], id) + Bit(MetricOf(history[|history| - 1].metrics, id).Some?)
  }

  predicate OneEach(metrics: seq<HandMetric>) {
    forall i, j :: 0 <= i < j < |metrics| && metrics[i].player != "" ==> metrics[i].player != metrics[j].player
  }

  // The guards are the hands of the history, and no hand is in it twice.
  ghost predicate EachOnce(guards: set<HandId>, history: seq<Delivery>) {
    && (forall n :: 0 <= n < |history| ==> history[n].hand in guards)
    && (forall h :: h in guards ==> exists n :: 0 <= n < |history| && history[n].hand == h)
    && (forall m, n :: 0 <= m < n < |history| ==> history[m].hand != history[n].hand)
  }

  lemma EachOnceNext(guards: set<HandId>, history: seq<Delivery>, d: Delivery)
    requires EachOnce(guards, history) && d.hand !in guards
    ensures EachOnce(guards + {d.hand}, history + [d])
  {
    var longer := history + [d];
    assert longer[|history|] == d;
    forall h | h in guards
      ensures exists n :: 0 <= n < |longer| && longer[n].hand == h
    {
      var n :| 0 <= n < |history| && history[n].hand == h;
      assert longer[n].hand == h;
    }
  }

  class Store {
    var stats: map<PlayerId, Stats>
    var guards: set<HandId>
    ghost var history: seq<Delivery>

    function At(id: PlayerId): Stats
      reads this
    {
      if id in stats then stats[id] else Stats(0, 0, 0, 0, 0)
    }

    // The counters are those of the hands recorded, each recorded once.
    ghost predicate Valid()
      reads this
    {
      && (forall id :: id != "" ==> At(id) == Tally(history, id))
      && EachOnce(guards, history)
    }

    constructor ()
      ensures Valid() && history == []
    {
      stats, guards, history := map[], {}, [];
    }

    // The guard and every participant's counters commit together or not at all,
    // so a hand delivered again changes nothing.
    method RecordHand(d: Delivery, applied: bool)
      requires Valid() && OneEach(d.metrics)
      modifies this
      ensures Valid()
      ensures history == if applied && Named(d.metrics) && d.hand !in old(guards) then old(history) + [d] else old(history)
      ensures old(guards) <= guards && (applied && Named(d.metrics) ==> d.hand in guards)
    {
      hide Plus, EachOnce;
      var updated, items := Increments(stats, d.metrics);
      if items == 0 || !applied || d.hand in guards { return; }
      EachOnceNext(guards, history, d);
      forall id | id != "" ensures AtIn(updated, id) == Tally(history + [d], id) {
        TallyLast(history, d, id);
        assert At(id) == AtIn(stats, id);
      }
      stats, guards, history := updated, guards + {d.hand}, history + [d];
    }
  }

  // Everybody's counters with one hand added, and how many players it has.
  method Increments(stats: map<PlayerId, Stats>, metrics: seq<HandMetric>) returns (updated: map<PlayerId, Stats>, items: nat)
    requires OneEach(metrics)
    ensures items > 0 <==> Named(metrics)
    ensures forall id :: id != "" ==> AtIn(updated, id) == With(AtIn(stats, id), MetricOf(metrics, id))
  {
    hide Plus;
    updated, items := stats, 0;
    for i := 0 to |metrics|
      invariant items > 0 <==> exists k :: 0 <= k < i && metrics[k].player != ""
      invariant forall id :: id != "" ==> AtIn(updated, id) == With(AtIn(stats, id), MetricOf(metrics[..i], id))
    {
      var m := metrics[i];
      assert metrics[..i + 1][..i] == metrics[..i];
      if m.player == "" { continue; }
      NotYet(metrics, i);
      updated := updated[m.player := Plus(AtIn(updated, m.player), m)];
      items := items + 1;
    }
    assert metrics[..|metrics|] == metrics;
  }

  function With(s: Stats, m: Option<HandMetric>): Stats { if m.Some? then Plus(s, m.value) else s }

  datatype Counter = Hands | Vpip | Pfr | ThreeBets | Chances

  function CountOf(s: Stats, c: Counter): nat {
    match c
    case Hands => s.hands
    case Vpip => s.vpip
    case Pfr => s.pfr
    case ThreeBets => s.threeBet
    case Chances => s.chances
  }

  predicate Has(m: HandMetric, c: Counter) {
    match c
    case Hands => true
    case Vpip => m.vpip
    case Pfr => m.pfr
    case ThreeBets => m.threeBet
    case Chances => m.threeBetChance
  }

  ghost predicate Shows(d: Delivery, id: PlayerId, c: Counter) {
    exists i :: 0 <= i < |d.metrics| && d.metrics[i].player == id && Has(d.metrics[i], c)
  }

  ghost function HandsWhere(history: seq<Delivery>, id: PlayerId, c: Counter): set<nat> {
    set n: nat | n < |history| && Shows(history[n], id, c)
  }

  // Each counter is the number of hands whose metrics show it for the player.
  lemma {:induction false} TallyCounts(history: seq<Delivery>, id: PlayerId, c: Counter)
    requires id != "" && forall n :: 0 <= n < |history| ==> OneEach(history[n].metrics)
    ensures CountOf(Tally(history, id), c) == |HandsWhere(history, id, c)|
    decreases |history|
  {
    hide OneEach, MetricOf, Shows, With, CountOf, Has, HandsWhere;
    if history == [] {
      NothingCounted(id, c);
    } else {
      var n := |history| - 1;
      var before, d := history[..n], history[n];
      assert forall k :: 0 <= k < n ==> before[k] == history[k];
      TallyCounts(before, id, c);
      ShowsIs(d, id, c, |d.metrics|);
      assert d.metrics[..|d.metrics|] == d.metrics;
      CountNext(Tally(before, id), MetricOf(d.metrics, id), c);
      HandsNext(history, id, c);
    }
  }

  lemma HandsNext(history: seq<Delivery>, id: PlayerId, c: Counter)
    requires history != []
    ensures var n := |history| - 1;
      |HandsWhere(history, id, c)| == |HandsWhere(history[..n], id, c)| + if Shows(history[n], id, c) then 1 else 0
  {
    hide Shows;
    var n := |history| - 1;
    var before := HandsWhere(history[..n], id, c);
    assert forall k :: 0 <= k < n ==> history[..n][k] == history[k];
    assert HandsWhere(history, id, c) == if Shows(history[n], id, c) then before + {n} else before;
  }

  lemma NothingCounted(id: PlayerId, c: Counter)
    ensures CountOf(Stats(0, 0, 0, 0, 0), c) == |HandsWhere([], id, c)|
  {
  }

  lemma CountNext(s: Stats, m: Option<HandMetric>, c: Counter)
    ensures CountOf(With(s, m), c) == CountOf(s, c) + if m.Some? && Has(m.value, c) then 1 else 0
  {
  }

  lemma {:induction false} ShowsIs(d: Delivery, id: PlayerId, c: Counter, n: nat)
    requires id != "" && OneEach(d.metrics) && n <= |d.metrics|
    ensures var m := MetricOf(d.metrics[..n], id);
      (exists i :: 0 <= i < n && d.metrics[i].player == id && Has(d.metrics[i], c)) <==> m.Some? && Has(m.value, c)
    ensures MetricOf(d.metrics[..n], id).None? <==> forall i :: 0 <= i < n ==> d.metrics[i].player != id
    ensures n == |d.metrics| ==> (Shows(d, id, c) <==> MetricOf(d.metrics[..n], id).Some? && Has(MetricOf(d.metrics[..n], id).value, c))
  {
    hide Has;
    if n > 0 {
      ShowsIs(d, id, c, n - 1);
      assert d.metrics[..n][..n - 1] == d.metrics[..n - 1];
    }
  }

  lemma TallyLast(history: seq<Delivery>, d: Delivery, id: PlayerId)
    ensures Tally(history + [d], id) == With(Tally(history, id), MetricOf(d.metrics, id))
  {
    assert (history + [d])[..|history|] == history;
  }

  function AtIn(stats: map<PlayerId, Stats>, id: PlayerId): Stats {
    if id in stats then stats[id] else Stats(0, 0, 0, 0, 0)
  }

  lemma {:induction false} NotYet(metrics: seq<HandMetric>, i: nat)
    requires i < |metrics| && OneEach(metrics) && metrics[i].player != ""
    ensures MetricOf(metrics[..i], metrics[i].player).None?
  {
    AbsentIs(metrics[..i], metrics[i].player);
  }

  lemma {:induction false} AbsentIs(metrics: seq<HandMetric>, id: PlayerId)
    requires forall i :: 0 <= i < |metrics| ==> metrics[i].player != id
    ensures MetricOf(metrics, id).None?
    decreases |metrics|
  {
    if metrics != [] { AbsentIs(metrics[..|metrics| - 1], id); }
  }

  // Over any history of hands whose metrics came from their logs: every rate is a
  // proportion, and hands counts the hands the player was in.
  lemma {:induction false} TallyBounds(history: seq<Delivery>, id: PlayerId)
    requires forall n, i :: 0 <= n < |history| && 0 <= i < |history[n].metrics| ==> Consistent(history[n].metrics[i])
    ensures var s := Tally(history, id);
      && s.hands == HandsWith(history, id) <= |history|
      && s.threeBet <= s.chances <= s.hands
      && s.threeBet <= s.pfr <= s.vpip <= s.hands
    decreases |history|
  {
    if history != [] {
      var before, last := history[..|history| - 1], history[|history| - 1];
      assert forall n :: 0 <= n < |before| ==> before[n] == history[n];
      TallyBounds(before, id);
      MetricIsListed(last.metrics, id);
    }
  }

  lemma {:induction false} MetricIsListed(metrics: seq<HandMetric>, id: PlayerId)
    ensures MetricOf(metrics, id).Some? ==> exists i :: 0 <= i < |metrics| && metrics[i] == MetricOf(metrics, id).value
    decreases |metrics|
  {
    if metrics != [] { MetricIsListed(metrics[..|metrics| - 1], id); }
  }
}
