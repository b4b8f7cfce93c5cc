// Achievement tiers: the stars a count is worth, the stars a hand crosses, and
// the summary a player sees.
module Tiers {
  import opened Sums

  type Key = string

  datatype Tier = Tier(stars: nat, threshold: int)
  datatype Achievement = Achievement(key: Key, metric: string, tiers: seq<Tier>, secret: bool)

  // n is the largest number of stars among the tiers that qualify, 0 if none does.
  ghost predicate BestOf(tiers: seq<Tier>, qualifies: Tier -> bool, n: nat) {
    && (forall i :: 0 <= i < |tiers| && qualifies(tiers[i]) ==> tiers[i].stars <= n)
    && (n > 0 ==> exists i :: 0 <= i < |tiers| && qualifies(tiers[i]) && tiers[i].stars == n)
  }

  predicate Reached(t: Tier, count: int) { count >= t.threshold }

  predicate Passed(t: Tier, previous: int, current: int) { previous < t.threshold && current >= t.threshold }

  function StarsAt(tiers: seq<Tier>, count: int): nat {
    if tiers == [] then 0
    else
      var n := StarsAt(tiers[..|tiers| - 1], count);
      var last := tiers[|tiers| - 1];
      if Reached(last, count) && last.stars > n then last.stars else n
  }

  function StarsCrossed(tiers: seq<Tier>, previous: int, current: int): nat {
    if tiers == [] then 0
    else
      var n := StarsCrossed(tiers[..|tiers| - 1], previous, current);
      var last := tiers[|tiers| - 1];
      if Passed(last, previous, current) && last.stars > n then last.stars else n
  }

  lemma {:induction false} StarsAtMeaning(tiers: seq<Tier>, count: int)
    ensures BestOf(tiers, t => Reached(t, count), StarsAt(tiers, count))
  {
    if tiers != [] {
      var n := |tiers| - 1;
      StarsAtMeaning(tiers[..n], count);
      BestOfNext(tiers, t => Reached(t, count), StarsAt(tiers[..n], count));
    }
  }

  lemma {:induction false} StarsCrossedMeaning(tiers: seq<Tier>, previous: int, current: int)
    ensures BestOf(tiers, t => Passed(t, previous, current), StarsCrossed(tiers, previous, current))
  {
    if tiers != [] {
      var n := |tiers| - 1;
      StarsCrossedMeaning(tiers[..n], previous, current);
      BestOfNext(tiers, t => Passed(t, previous, current), StarsCrossed(tiers[..n], previous, current));
    }
  }

  lemma BestOfNext(tiers: seq<Tier>, qualifies: Tier -> bool, n: nat)
    requires tiers != [] && BestOf(tiers[..|tiers| - 1], qualifies, n)
    ensures var last := tiers[|tiers| - 1];
      BestOf(tiers, qualifies, if qualifies(last) && last.stars > n then last.stars else n)
  {
    if n > 0 {
      var i :| 0 <= i < |tiers| - 1 && qualifies(tiers[..|tiers| - 1][i]) && tiers[..|tiers| - 1][i].stars == n;
      assert tiers[i].stars == n;
    }
  }

  function Max(a: nat, b: nat): nat { if a >= b then a else b }

  // Moving a counter up earns exactly what it crosses on the way.
  lemma {:induction false} CrossingLaw(tiers: seq<Tier>, previous: int, current: int)
    requires previous <= current
    ensures Max(StarsAt(tiers, previous), StarsCrossed(tiers, previous, current)) == StarsAt(tiers, current)
  {
    if tiers != [] { CrossingLaw(tiers[..|tiers| - 1], previous, current); }
  }

  // ---------- The summary ----------

  datatype State = State(
    key: Key,
    metric: string,
    secret: bool,
    progress: int,
    stars: nat,
    unlocked: bool,
    completed: bool,
    nextTarget: Option<int>,
    maxTarget: int)

  // The nearest threshold still ahead.
  function NextTarget(tiers: seq<Tier>, count: int): Option<int> {
    if tiers == [] then None
    else
      var next := NextTarget(tiers[..|tiers| - 1], count);
      var last := tiers[|tiers| - 1];
      if !Reached(last, count) && (next.None? || last.threshold < next.value) then Some(last.threshold) else next
  }

  // The farthest threshold, never below zero.
  function MaxTarget(tiers: seq<Tier>): int {
    if tiers == [] then 0
    else
      var most := MaxTarget(tiers[..|tiers| - 1]);
      var last := tiers[|tiers| - 1].threshold;
      if last > most then last else most
  }

  ghost predicate NearestAhead(tiers: seq<Tier>, count: int, next: Option<int>) {
    match next
    case None => forall i :: 0 <= i < |tiers| ==> Reached(tiers[i], count)
    case Some(x) =>
      && count < x
      && (exists i :: 0 <= i < |tiers| && tiers[i].threshold == x)
      && forall i :: 0 <= i < |tiers| && !Reached(tiers[i], count) ==> x <= tiers[i].threshold
  }

  lemma {:induction false} NextTargetMeaning(tiers: seq<Tier>, count: int)
    ensures NearestAhead(tiers, count, NextTarget(tiers, count))
  {
    if tiers != [] {
      var before := tiers[..|tiers| - 1];
      NextTargetMeaning(before, count);
      assert forall i :: 0 <= i < |before| ==> before[i] == tiers[i];
      var next := NextTarget(before, count);
      if next.Some? {
        var i :| 0 <= i < |before| && before[i].threshold == next.value;
        assert tiers[i].threshold == next.value;
      }
    }
  }

  function StateOf(a: Achievement, count: int): State {
    var stars, next := StarsAt(a.tiers, count), NextTarget(a.tiers, count);
    State(a.key, a.metric, a.secret, count, stars, stars > 0, next.None?, next, MaxTarget(a.tiers))
  }

  // One tier list against one count, in a single pass.
  method StateFor(a: Achievement, count: int) returns (s: State)
    ensures s == StateOf(a, count)
  {
    s := State(a.key, a.metric, a.secret, count, 0, false, false, None, 0);
    for n := 0 to |a.tiers|
      invariant s == State(a.key, a.metric, a.secret, count, StarsAt(a.tiers[..n], count), false, false,
        NextTarget(a.tiers[..n], count), MaxTarget(a.tiers[..n]))
    {
      var tier := a.tiers[n];
      assert a.tiers[..n + 1][..n] == a.tiers[..n];
      if tier.threshold > s.maxTarget { s := s.(maxTarget := tier.threshold); }
      if count >= tier.threshold {
        if tier.stars > s.stars { s := s.(stars := tier.stars); }
        continue;
      }
      if s.nextTarget.None? || tier.threshold < s.nextTarget.value { s := s.(nextTarget := Some(tier.threshold)); }
    }
    assert a.tiers[..|a.tiers|] == a.tiers;
    s := s.(unlocked := s.stars > 0, completed := s.nextTarget.None?);
  }

  function MinimumThreshold(tiers: seq<Tier>): int {
    if tiers == [] then 0
    else if |tiers| == 1 then tiers[0].threshold
    else
      var m := MinimumThreshold(tiers[..|tiers| - 1]);
      var last := tiers[|tiers| - 1].threshold;
      if last < m then last else m
  }

  function MaxStars(tiers: seq<Tier>): nat {
    if tiers == [] then 0
    else Max(MaxStars(tiers[..|tiers| - 1]), tiers[|tiers| - 1].stars)
  }

  // A secret shows only once its first tier is reached.
  predicate Shown(a: Achievement, count: int) { !a.secret || count >= MinimumThreshold(a.tiers) }

  lemma {:induction false} StarsWithinMax(tiers: seq<Tier>, count: int)
    ensures StarsAt(tiers, count) <= MaxStars(tiers)
    ensures NextTarget(tiers, count).None? ==> StarsAt(tiers, count) == MaxStars(tiers)
  {
    if tiers != [] { StarsWithinMax(tiers[..|tiers| - 1], count); }
  }

  datatype Totals = Totals(revealed: nat, unlocked: nat, completed: nat, stars: nat, maxStars: nat)

  type Counts = map<Key, int>

  // The totals a catalog's shown achievements add up to.
  function TotalsOf(catalog: seq<Achievement>, counts: Counts): Totals {
    if catalog == [] then Totals(0, 0, 0, 0, 0)
    else
      var t := TotalsOf(catalog[..|catalog| - 1], counts);
      var a := catalog[|catalog| - 1];
      var count := Get(counts, a.key);
      if !Shown(a, count) then t
      else
        var stars := StarsAt(a.tiers, count);
        Totals(t.revealed + 1, t.unlocked + (if stars > 0 then 1 else 0),
          t.completed + (if NextTarget(a.tiers, count).None? then 1 else 0),
          t.stars + stars, t.maxStars + MaxStars(a.tiers))
  }

  // What the header can never show: more stars than there are, more unlocked or
  // completed than revealed, or a full house short of a star.
  lemma {:induction false} TotalsBounds(catalog: seq<Achievement>, counts: Counts)
    ensures var t := TotalsOf(catalog, counts);
      && t.stars <= t.maxStars && t.unlocked <= t.revealed <= |catalog| && t.completed <= t.revealed
      && (t.completed == t.revealed ==> t.stars == t.maxStars)
  {
    if catalog != [] {
      var a := catalog[|catalog| - 1];
      TotalsBounds(catalog[..|catalog| - 1], counts);
      StarsWithinMax(a.tiers, Get(counts, a.key));
    }
  }

  function StatesOf(catalog: seq<Achievement>, counts: Counts): seq<State> {
    if catalog == [] then []
    else
      var states := StatesOf(catalog[..|catalog| - 1], counts);
      var a := catalog[|catalog| - 1];
      if Shown(a, Get(counts, a.key)) then states + [StateOf(a, Get(counts, a.key))] else states
  }

  // A state is listed exactly for the achievements that may be shown: a secret
  // not yet begun leaves no trace.
  lemma {:induction false} StatesAreShown(catalog: seq<Achievement>, counts: Counts, s: State)
    ensures s in StatesOf(catalog, counts) <==>
      exists i :: 0 <= i < |catalog| && Shown(catalog[i], Get(counts, catalog[i].key)) && s == StateOf(catalog[i], Get(counts, catalog[i].key))
    ensures |StatesOf(catalog, counts)| == TotalsOf(catalog, counts).revealed
  {
    hide StateOf, Shown, StarsAt, MaxStars;
    if catalog != [] { StatesAreShown(catalog[..|catalog| - 1], counts, s); }
  }

  // What one state says: unlocked is some star reached, completed is every tier
  // reached, and the last target is the farthest threshold.
  lemma StateMeaning(a: Achievement, count: int)
    ensures var s := StateOf(a, count);
      && s.progress == count && s.key == a.key
      && (s.unlocked <==> exists i :: 0 <= i < |a.tiers| && Reached(a.tiers[i], count) && a.tiers[i].stars > 0)
      && (s.completed <==> forall i :: 0 <= i < |a.tiers| ==> Reached(a.tiers[i], count))
    ensures var s := StateOf(a, count);
      && (forall i :: 0 <= i < |a.tiers| ==> a.tiers[i].threshold <= s.maxTarget)
      && s.maxTarget >= 0
      && (s.maxTarget > 0 ==> exists i :: 0 <= i < |a.tiers| && a.tiers[i].threshold == s.maxTarget)
  {
    hide StarsAt, NextTarget, MaxTarget;
    StarsAtMeaning(a.tiers, count);
    NextTargetMeaning(a.tiers, count);
    MaxTargetMeaning(a.tiers);
  }

  lemma {:induction false} MaxTargetMeaning(tiers: seq<Tier>)
    ensures forall i :: 0 <= i < |tiers| ==> tiers[i].threshold <= MaxTarget(tiers)
    ensures MaxTarget(tiers) >= 0
    ensures MaxTarget(tiers) > 0 ==> exists i :: 0 <= i < |tiers| && tiers[i].threshold == MaxTarget(tiers)
  {
    if tiers != [] {
      var before := tiers[..|tiers| - 1];
      MaxTargetMeaning(before);
      assert forall i :: 0 <= i < |before| ==> before[i] == tiers[i];
      if i :| 0 <= i < |before| && before[i].threshold == MaxTarget(before) { assert tiers[i].threshold == MaxTarget(before); }
    }
  }

  // A secret shows exactly once one of its tiers is reached.
  lemma {:induction false} ShownMeaning(a: Achievement, count: int)
    requires a.tiers != []
    ensures Shown(a, count) <==> !a.secret || exists i :: 0 <= i < |a.tiers| && Reached(a.tiers[i], count)
    decreases |a.tiers|
  {
    var n := |a.tiers| - 1;
    if n > 0 {
      var before := a.(tiers := a.tiers[..n], secret := true);
      ShownMeaning(before, count);
      assert forall i :: 0 <= i < n ==> before.tiers[i] == a.tiers[i];
      if i :| 0 <= i < n && Reached(before.tiers[i], count) { assert Reached(a.tiers[i], count); }
      assert Reached(a.tiers[n], count) ==> exists i :: 0 <= i < |a.tiers| && Reached(a.tiers[i], count);
    } else {
      assert Reached(a.tiers[0], count) <==> count >= MinimumThreshold(a.tiers);
    }
  }

  function UnlockedIn(states: seq<State>): nat {
    if states == [] then 0 else UnlockedIn(states[..|states| - 1]) + (if states[|states| - 1].unlocked then 1 else 0)
  }

  function CompletedIn(states: seq<State>): nat {
    if states == [] then 0 else CompletedIn(states[..|states| - 1]) + (if states[|states| - 1].completed then 1 else 0)
  }

  function StarsIn(states: seq<State>): nat {
    if states == [] then 0 else StarsIn(states[..|states| - 1]) + states[|states| - 1].stars
  }

  // The header adds up exactly the states listed under it.
  lemma {:induction false} TotalsAddUp(catalog: seq<Achievement>, counts: Counts)
    ensures var t, states := TotalsOf(catalog, counts), StatesOf(catalog, counts);
      && t.revealed == |states| && t.unlocked == UnlockedIn(states)
      && t.completed == CompletedIn(states) && t.stars == StarsIn(states)
  {
    hide Shown, StarsAt, NextTarget, MaxTarget, MaxStars;
    if catalog != [] {
      var before := catalog[..|catalog| - 1];
      TotalsAddUp(before, counts);
      var a := catalog[|catalog| - 1];
      var s := StateOf(a, Get(counts, a.key));
      assert (StatesOf(before, counts) + [s])[..|StatesOf(before, counts)|] == StatesOf(before, counts);
    }
  }

  // A key is looked up in its first catalog entry.
  lemma {:induction false} FirstEntryCounts(catalog: seq<Achievement>, key: Key, i: nat)
    requires i < |catalog| && catalog[i].key == key && forall j :: 0 <= j < i ==> catalog[j].key != key
    ensures TiersOf(catalog, key) == catalog[i].tiers
  {
    if i > 0 { FirstEntryCounts(catalog[1..], key, i - 1); }
  }

  function CountsOf(progress: seq<(Key, int)>): Counts {
    if progress == [] then map[]
    else
      var last := progress[|progress| - 1];
      CountsOf(progress[..|progress| - 1])[last.0 := last.1]
  }

  // A key repeated in the list is read from its last row.
  lemma {:induction false} LastRowWins(progress: seq<(Key, int)>, i: nat)
    requires i < |progress| && forall j :: i < j < |progress| ==> progress[j].0 != progress[i].0
    ensures progress[i].0 in CountsOf(progress) && CountsOf(progress)[progress[i].0] == progress[i].1
    decreases |progress|
  {
    if i < |progress| - 1 { LastRowWins(progress[..|progress| - 1], i); }
  }

  // One pass over the rows, one over the catalog.
  method BuildSummary(catalog: seq<Achievement>, progress: seq<(Key, int)>) returns (totals: Totals, states: seq<State>)
    ensures totals == TotalsOf(catalog, CountsOf(progress))
    ensures states == StatesOf(catalog, CountsOf(progress))
  {
    hide StarsAt, MaxStars, MinimumThreshold, NextTarget, MaxTarget;
    var counts: Counts := map[];
    for n := 0 to |progress|
      invariant counts == CountsOf(progress[..n])
    {
      assert progress[..n + 1][..n] == progress[..n];
      counts := counts[progress[n].0 := progress[n].1];
    }
    assert progress[..|progress|] == progress;
    totals, states := Totals(0, 0, 0, 0, 0), [];
    for n := 0 to |catalog|
      invariant totals == TotalsOf(catalog[..n], counts) && states == StatesOf(catalog[..n], counts)
    {
      assert catalog[..n + 1][..n] == catalog[..n];
      var a := catalog[n];
      var count := Get(counts, a.key);
      if a.secret && count < MinimumThreshold(a.tiers) { continue; }
      var state := StateFor(a, count);
      totals := totals.(revealed := totals.revealed + 1);
      totals := totals.(maxStars := totals.maxStars + MaxStars(a.tiers));
      totals := totals.(stars := totals.stars + state.stars);
      if state.unlocked { totals := totals.(unlocked := totals.unlocked + 1); }
      if state.completed { totals := totals.(completed := totals.completed + 1); }
      states := states + [state];
    }
    assert catalog[..|catalog|] == catalog;
  }

  // The tiers of a key: those of the first achievement that has it.
  function TiersOf(catalog: seq<Achievement>, key: Key): seq<Tier> {
    if catalog == [] then []
    else if catalog[0].key == key then catalog[0].tiers
    else TiersOf(catalog[1..], key)
  }

  // The stars a key's counter crosses, looked up in the catalog.
  method TierCrossed(catalog: seq<Achievement>, key: Key, previous: int, current: int) returns (stars: nat, crossed: bool)
    ensures stars == StarsCrossed(TiersOf(catalog, key), previous, current)
    ensures crossed <==> stars > 0
  {
    for n := 0 to |catalog|
      invariant TiersOf(catalog, key) == TiersOf(catalog[n..], key)
    {
      if catalog[n].key != key { continue; }
      stars := 0;
      var tiers := catalog[n].tiers;
      for i := 0 to |tiers|
        invariant stars == StarsCrossed(tiers[..i], previous, current)
      {
        assert tiers[..i + 1][..i] == tiers[..i];
        if previous < tiers[i].threshold && current >= tiers[i].threshold && tiers[i].stars > stars {
          stars := tiers[i].stars;
        }
      }
      assert tiers[..|tiers|] == tiers;
      return stars, stars > 0;
    }
    return 0, false;
  }
}
