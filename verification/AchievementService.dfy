// A hand's deltas as the rules accumulate them, and the progress store they are
// flushed to.
module AchievementService {
  import opened Sums
  import opened Replies
  import opened Tiers
  import opened AchievementProgress

  type PlayerId = string

  // ---------- Accumulating a hand's deltas ----------

  datatype Rule =
    | Bump(player: PlayerId, key: Key, amount: int)
    | Reset(player: PlayerId, key: Key, value: int)

  predicate Counted(r: Rule) { r.player != "" && r.key != "" && (r.Bump? ==> r.amount > 0) }

  // What the rules of a hand mean for one counter: the last reset, or else the sum.
  function ResetOf(rules: seq<Rule>, player: PlayerId, key: Key): Option<int> {
    if rules == [] then None
    else
      var r := rules[|rules| - 1];
      if r.Reset? && Counted(r) && r.player == player && r.key == key then Some(r.value)
      else ResetOf(rules[..|rules| - 1], player, key)
  }

  function BumpsOf(rules: seq<Rule>, player: PlayerId, key: Key): nat {
    if rules == [] then 0
    else
      var r := rules[|rules| - 1];
      BumpsOf(rules[..|rules| - 1], player, key)
      + (if r.Bump? && Counted(r) && r.player == player && r.key == key then r.amount else 0)
  }

  type Ledger = map<PlayerId, Counts>

  function SetAt(sets: Ledger, player: PlayerId, key: Key): Option<int> {
    if player in sets && key in sets[player] then Some(sets[player][key]) else None
  }

  function AddAt(adds: Ledger, player: PlayerId, key: Key): int {
    if player in adds then Get(adds[player], key) else 0
  }

  // The players seen, once each; and no counter both incremented and overwritten.
  ghost predicate Shape(adds: Ledger, sets: Ledger, order: seq<PlayerId>) {
    && adds.Keys == sets.Keys
    && (forall p :: p in adds <==> p in order)
    && (forall i, j :: 0 <= i < j < |order| ==> order[i] != order[j])
    && (forall p :: p in adds ==> p != "" && Valid(Delta(None, adds[p], sets[p])))
  }

  // The maps say what the rules so far mean for this counter.
  ghost predicate Agrees(adds: Ledger, sets: Ledger, rules: seq<Rule>, player: PlayerId, key: Key) {
    && SetAt(sets, player, key) == ResetOf(rules, player, key)
    && (ResetOf(rules, player, key).None? ==> AddAt(adds, player, key) == BumpsOf(rules, player, key))
  }

  ghost predicate Means(adds: Ledger, sets: Ledger, rules: seq<Rule>) {
    forall p, k :: Agrees(adds, sets, rules, p, k)
  }

  class HandDeltas {
    var adds: Ledger
    var sets: Ledger
    var order: seq<PlayerId>
    ghost var rules: seq<Rule>

    ghost predicate Valid()
      reads this
    {
      Shape(adds, sets, order) && Means(adds, sets, rules)
    }

    constructor ()
      ensures Valid() && rules == [] && order == []
    {
      adds, sets, order, rules := map[], map[], [], [];
    }

    // First sight of a player fixes their place in the order.
    method Track(player: PlayerId) returns (known: bool)
      requires Valid()
      modifies this`adds, this`sets, this`order
      ensures Valid()
      ensures known <==> player != ""
      ensures order == if known && player !in old(order) then old(order) + [player] else old(order)
      ensures known ==> player in adds && player in sets
    {
      if player == "" { return false; }
      if player !in adds {
        hide Shape, Means;
        TrackKeeps(adds, sets, order, rules, player);
        adds, sets, order := adds[player := map[]], sets[player := map[]], order + [player];
      }
      known := true;
    }

    method Add(player: PlayerId, key: Key, amount: int)
      requires Valid()
      modifies this
      ensures Valid() && rules == old(rules) + [Bump(player, key, amount)]
      ensures old(order) <= order
    {
      hide Shape, Means;
      ghost var rule := Bump(player, key, amount);
      var known := Track(player);
      if !known || key == "" || amount <= 0 {
        NothingCounts(adds, sets, rules, rule);
        rules := rules + [rule];
        return;
      }
      AddKeeps(adds, sets, order, rules, player, key, amount);
      rules := rules + [rule];
      if key in sets[player] { return; }
      adds := adds[player := adds[player][key := Get(adds[player], key) + amount]];
    }

    method Set(player: PlayerId, key: Key, value: int)
      requires Valid()
      modifies this
      ensures Valid() && rules == old(rules) + [Reset(player, key, value)]
      ensures old(order) <= order
    {
      hide Shape, Means;
      ghost var rule := Reset(player, key, value);
      var known := Track(player);
      if !known || key == "" {
        NothingCounts(adds, sets, rules, rule);
        rules := rules + [rule];
        return;
      }
      SetKeeps(adds, sets, order, rules, player, key, value);
      rules := rules + [rule];
      adds := adds[player := adds[player] - {key}];
      sets := sets[player := sets[player][key := value]];
    }

    // What the flush writes for a player: the net effect of every rule of the hand.
    ghost predicate Nets(player: PlayerId, d: Delta)
      reads this
    {
      forall k ::
        && (k in d.sets <==> ResetOf(rules, player, k).Some?)
        && (k in d.sets ==> Some(d.sets[k]) == ResetOf(rules, player, k))
        && (k !in d.sets ==> Get(d.adds, k) == BumpsOf(rules, player, k))
    }

    method DeltaOf(player: PlayerId, hand: Option<HandId>) returns (d: Delta)
      requires Valid() && player in order
      ensures d.hand == hand && AchievementProgress.Valid(d) && Nets(player, d)
    {
      d := Delta(hand, adds[player], sets[player]);
      forall k
        ensures (k in d.sets <==> ResetOf(rules, player, k).Some?) && (k in d.sets ==> Some(d.sets[k]) == ResetOf(rules, player, k))
        ensures k !in d.sets ==> Get(d.adds, k) == BumpsOf(rules, player, k)
      {
        assert Agrees(adds, sets, rules, player, k);
      }
    }
  }

  lemma RulesNext(rules: seq<Rule>, r: Rule, p: PlayerId, k: Key)
    ensures ResetOf(rules + [r], p, k) ==
      (if r.Reset? && Counted(r) && r.player == p && r.key == k then Some(r.value) else ResetOf(rules, p, k))
    ensures BumpsOf(rules + [r], p, k) ==
      BumpsOf(rules, p, k) + (if r.Bump? && Counted(r) && r.player == p && r.key == k then r.amount else 0)
  {
    assert (rules + [r])[..|rules|] == rules;
  }

  lemma NothingCounts(adds: Ledger, sets: Ledger, rules: seq<Rule>, r: Rule)
    requires Means(adds, sets, rules) && !Counted(r)
    ensures Means(adds, sets, rules + [r])
  {
    hide ResetOf, BumpsOf;
    var rules' := rules + [r];
    forall p, k
      ensures Agrees(adds, sets, rules', p, k)
    {
      RulesNext(rules, r, p, k);
      assert Agrees(adds, sets, rules, p, k);
    }
  }

  lemma TrackKeeps(adds: Ledger, sets: Ledger, order: seq<PlayerId>, rules: seq<Rule>, player: PlayerId)
    requires Shape(adds, sets, order) && Means(adds, sets, rules) && player !in adds && player != ""
    ensures Shape(adds[player := map[]], sets[player := map[]], order + [player])
    ensures Means(adds[player := map[]], sets[player := map[]], rules)
  {
    hide ResetOf, BumpsOf;
    var adds', sets': Ledger := adds[player := map[]], sets[player := map[]];
    forall p, k
      ensures Agrees(adds', sets', rules, p, k)
    {
      assert Agrees(adds, sets, rules, p, k);
    }
  }

  lemma AddKeeps(adds: Ledger, sets: Ledger, order: seq<PlayerId>, rules: seq<Rule>, player: PlayerId, key: Key, amount: int)
    requires Shape(adds, sets, order) && Means(adds, sets, rules) && player in adds && player in sets
    requires player != "" && key != "" && amount > 0
    ensures var adds' := if key in sets[player] then adds
                         else adds[player := adds[player][key := Get(adds[player], key) + amount]];
      Shape(adds', sets, order) && Means(adds', sets, rules + [Bump(player, key, amount)])
  {
    hide ResetOf, BumpsOf;
    var adds' := if key in sets[player] then adds
                 else adds[player := adds[player][key := Get(adds[player], key) + amount]];
    forall p, k
      ensures Agrees(adds', sets, rules + [Bump(player, key, amount)], p, k)
    {
      RulesNext(rules, Bump(player, key, amount), p, k);
      assert Agrees(adds, sets, rules, p, k);
    }
  }

  lemma SetKeeps(adds: Ledger, sets: Ledger, order: seq<PlayerId>, rules: seq<Rule>, player: PlayerId, key: Key, value: int)
    requires Shape(adds, sets, order) && Means(adds, sets, rules) && player in adds && player in sets
    requires player != "" && key != ""
    ensures var adds' := adds[player := adds[player] - {key}];
      var sets' := sets[player := sets[player][key := value]];
      Shape(adds', sets', order) && Means(adds', sets', rules + [Reset(player, key, value)])
  {
    hide ResetOf, BumpsOf;
    var adds' := adds[player := adds[player] - {key}];
    var sets' := sets[player := sets[player][key := value]];
    forall p, k
      ensures Agrees(adds', sets', rules + [Reset(player, key, value)], p, k)
    {
      RulesNext(rules, Reset(player, key, value), p, k);
      assert Agrees(adds, sets, rules, p, k);
    }
  }

  // Bumps commute: whatever order the rules of a hand fire in, a counter that is
  // never reset ends with the same increment.
  lemma {:induction false} BumpsCommute(a: seq<Rule>, b: seq<Rule>, player: PlayerId, key: Key)
    ensures BumpsOf(a + b, player, key) == BumpsOf(b + a, player, key) == BumpsOf(a, player, key) + BumpsOf(b, player, key)
    decreases |a| + |b|
  {
    BumpsSplit(a, b, player, key);
    BumpsSplit(b, a, player, key);
  }

  lemma {:induction false} BumpsSplit(a: seq<Rule>, b: seq<Rule>, player: PlayerId, key: Key)
    ensures BumpsOf(a + b, player, key) == BumpsOf(a, player, key) + BumpsOf(b, player, key)
    decreases |b|
  {
    if b == [] {
      assert a + b == a;
    } else {
      BumpsSplit(a, b[..|b| - 1], player, key);
      assert (a + b)[..|a + b| - 1] == a + b[..|b| - 1];
    }
  }

  // ---------- The store ----------

  // One access: the row as other instances left it, then the answer.
  datatype Access = Access(meanwhile: Option<Counts>, reply: Reply)

  function Seen(s: Shared, access: Access): Shared {
    if access.meanwhile.Some? then s.(row := access.meanwhile) else s
  }

  function Among(s: Shared, pc: Pc, accesses: seq<Access>): (Shared, Pc)
    decreases |accesses|
  {
    if accesses == [] then (s, pc)
    else
      var x := Among(s, pc, accesses[..|accesses| - 1]);
      var last := accesses[|accesses| - 1];
      Advance(Seen(x.0, last), x.1, last.reply)
  }

  lemma AmongNext(s: Shared, pc: Pc, accesses: seq<Access>, n: nat)
    requires n < |accesses|
    ensures var x := Among(s, pc, accesses[..n]);
      Among(s, pc, accesses[..n + 1]) == Advance(Seen(x.0, accesses[n]), x.1, accesses[n].reply)
    ensures Among(s, pc, accesses[..0]) == (s, pc)
  {
    hide Advance;
    assert accesses[..n + 1][..n] == accesses[..n];
  }

  // One player's progress row.
  class Store {
    var row: Option<Counts>
    var guards: set<HandId>
    const legacy: Counts

    function State(): Shared
      reads this
    {
      Shared(row, legacy, guards)
    }

    method Meet(access: Access)
      modifies this`row
      ensures State() == Seen(old(State()), access)
    {
      if access.meanwhile.Some? { row := access.meanwhile; }
    }

    // True for the first caller, fleet-wide; an unclear answer is never a yes.
    method ClaimHandCounters(hand: Option<HandId>, reply: Reply) returns (claimed: bool, ok: bool)
      modifies this`guards
      ensures hand.None? ==> claimed && ok && guards == old(guards)
      ensures hand.Some? ==> (claimed <==> hand.value !in old(guards) && reply == Landed)
      ensures hand.Some? ==> guards == if reply == Refused then old(guards) else old(guards) + {hand.value}
      ensures claimed ==> ok
    {
      if hand.None? { return true, true; }
      if reply == Refused { return false, false; }
      if hand.value in guards { return false, true; }
      guards := guards + {hand.value};
      return reply == Landed, reply == Landed;
    }

    // Updates the row; creates it out of the older rows if it is missing; and if
    // somebody else creates it first, updates theirs. What it reports is what its
    // own write did.
    method ApplyHandProgress(d: Delta, accesses: seq<Access>) returns (result: Result, n: nat, ghost before: Counts)
      requires |accesses| >= 4 && d.adds.Keys !! d.sets.Keys
      modifies this`row
      ensures n <= 4 && (State(), Done(result)) == Among(old(State()), Enter(d), accesses[..n])
      ensures (exists k :: k in d.adds && d.adds[k] <= 0) ==> result == Error && n == 0 && row == old(row)
      ensures result.Reported? && n > 0 ==> row == Some(result.current) && Moved(before, result.current, d)
      ensures result.Reported? && n > 0 ==> forall k ::
        && (k in d.sets ==> k in result.current && result.current[k] == d.sets[k] && Get(result.previous, k) == d.sets[k])
        && (k in d.adds ==> Get(result.previous, k) == Get(before, k) && Get(result.current, k) == Get(before, k) + d.adds[k])
      ensures n == 1 && result.Reported? ==> Seen(old(State()), accesses[0]).row == Some(before)
      ensures n == 3 && result.Reported? ==> before == legacy
      ensures
        (forall k :: 0 <= k < 4 ==> accesses[k].reply == Landed && accesses[k].meanwhile.None?) &&
        (d.adds != map[] || d.sets != map[]) && (forall k :: k in d.adds ==> d.adds[k] > 0) ==>
          result.Reported? && n > 0 && before == if old(row).Some? then old(row).value else legacy
    {
      hide Among, Apply, PreviousOf, Moved;
      ghost var s := State();
      before := legacy;
      AmongNext(s, Enter(d), accesses, 0);
      if d.adds == map[] && d.sets == map[] { return Reported(map[], map[]), 0, legacy; }
      var positive := AllPositive(d.adds);
      if !positive { return Error, 0, legacy; }
      Meet(accesses[0]);
      if accesses[0].reply == Refused { return Error, 1, legacy; }
      if row.Some? {
        before := row.value;
        result := Commit(row.value, d, accesses[0].reply);
        ReportedMoves(before, d);
        return result, 1, before;
      }
      AmongNext(s, Enter(d), accesses, 1);
      result, n, before := SeedAggregate(d, s, accesses);
      ReportedMoves(before, d);
    }

    method SeedAggregate(d: Delta, ghost s: Shared, accesses: seq<Access>) returns (result: Result, n: nat, ghost before: Counts)
      requires |accesses| >= 4
      requires (State(), ReadingLegacy(d)) == Among(s, Enter(d), accesses[..1])
      modifies this`row
      ensures 1 < n <= 4 && (State(), Done(result)) == Among(s, Enter(d), accesses[..n])
      ensures result.Reported? ==>
        row == Some(result.current) && result.current == Apply(before, d) && result.previous == PreviousOf(result.current, d)
      ensures n == 3 && result.Reported? ==> before == legacy
      ensures old(row).None? && (forall k :: 0 <= k < 4 ==> accesses[k].reply == Landed && accesses[k].meanwhile.None?) ==>
        result.Reported? && n == 3
    {
      hide Among, Apply, PreviousOf;
      before := legacy;
      AmongNext(s, Enter(d), accesses, 1);
      Meet(accesses[1]);
      if accesses[1].reply != Landed { return Error, 2, legacy; }
      AmongNext(s, Enter(d), accesses, 2);
      Meet(accesses[2]);
      if accesses[2].reply == Refused { return Error, 3, legacy; }
      if row.None? {
        result := Commit(legacy, d, accesses[2].reply);
        return result, 3, legacy;
      }
      AmongNext(s, Enter(d), accesses, 3);
      Meet(accesses[3]);
      if accesses[3].reply == Refused { return Error, 4, legacy; }
      before := row.value;
      result := Commit(row.value, d, accesses[3].reply);
      n := 4;
    }

    method Commit(from: Counts, d: Delta, reply: Reply) returns (result: Result)
      modifies this`row
      ensures row == Some(Apply(from, d))
      ensures result == if reply == Landed then Reported(PreviousOf(Apply(from, d), d), Apply(from, d)) else Error
    {
      row := Some(Apply(from, d));
      result := if reply == Landed then Reported(PreviousOf(row.value, d), row.value) else Error;
    }
  }

  // What one hand's write means for every counter.
  ghost predicate Moved(before: Counts, after: Counts, d: Delta) {
    forall k :: Get(after, k) == if k in d.sets then d.sets[k] else Get(before, k) + Get(d.adds, k)
  }

  lemma ReportedMoves(before: Counts, d: Delta)
    requires d.adds.Keys !! d.sets.Keys
    ensures var after := Apply(before, d); var previous := PreviousOf(after, d);
      && Moved(before, after, d)
      && forall k ::
           && (k in d.sets ==> k in after && after[k] == d.sets[k] && Get(previous, k) == d.sets[k])
           && (k in d.adds ==> Get(previous, k) == Get(before, k) && Get(after, k) == Get(before, k) + d.adds[k])
  {
  }

  method AllPositive(adds: Counts) returns (ok: bool)
    ensures ok <==> forall k :: k in adds ==> adds[k] > 0
  {
    var rest := adds.Keys;
    while rest != {}
      invariant rest <= adds.Keys
      invariant forall k :: k in adds && k !in rest ==> adds[k] > 0
    {
      var k :| k in rest;
      if adds[k] <= 0 { return false; }
      rest := rest - {k};
    }
    ok := true;
  }

  datatype TierUnlock = TierUnlock(player: PlayerId, key: Key, stars: nat)

  // Flushes one player's hand. It announces exactly the tiers that the
  // increments, as the store reported them, crossed.
  method FlushPlayer(catalog: seq<Achievement>, store: Store, player: PlayerId, d: Delta, accesses: seq<Access>)
    returns (unlocks: seq<TierUnlock>, result: Result)
    requires |accesses| >= 4 && d.adds.Keys !! d.sets.Keys
    modifies store
    ensures result.Reported? ==> forall u: TierUnlock ::
      u in unlocks <==> (
        u.player == player && u.key in d.adds && u.stars > 0
        && u.stars == StarsCrossed(TiersOf(catalog, u.key), Get(result.previous, u.key), Get(result.current, u.key)))
    ensures !result.Reported? ==> unlocks == []
  {
    hide *;
    var n;
    ghost var before;
    result, n, before := store.ApplyHandProgress(d, accesses);
    unlocks := [];
    if !result.Reported? { return; }
    var rest := d.adds.Keys;
    while rest != {}
      invariant rest <= d.adds.Keys
      invariant forall u: TierUnlock ::
        u in unlocks <==> (
          u.player == player && u.key in d.adds && u.key !in rest && u.stars > 0
          && u.stars == StarsCrossed(TiersOf(catalog, u.key), Get(result.previous, u.key), Get(result.current, u.key)))
    {
      var key :| key in rest;
      var stars, crossed := TierCrossed(catalog, key, Get(result.previous, key), Get(result.current, key));
      if crossed { unlocks := unlocks + [TierUnlock(player, key, stars)]; }
      rest := rest - {key};
    }
  }

  // ---------- One table's running streak ----------

  // How many of the latest results in a row agree, signed: wins up, losses down.
  function StreakOf(results: seq<bool>): int {
    if results == [] then 0
    else
      var before := StreakOf(results[..|results| - 1]);
      if results[|results| - 1] then (if before >= 0 then before + 1 else 1)
      else (if before <= 0 then before - 1 else 0 - 1)
  }

  // The streak is the length of the run of equal results it ends in, and no longer.
  lemma {:induction false} StreakMeaning(results: seq<bool>)
    requires results != []
    ensures var s := StreakOf(results); var last := results[|results| - 1];
      var run := if last then s else 0 - s;
      && 1 <= run <= |results|
      && (forall i :: |results| - run <= i < |results| ==> results[i] == last)
      && (run < |results| ==> results[|results| - run - 1] != last)
  {
    var before := results[..|results| - 1];
    if before != [] {
      StreakMeaning(before);
      assert forall i :: 0 <= i < |before| ==> before[i] == results[i];
    }
  }

  class TableStreak {
    var counter: Option<int>
    ghost var results: seq<bool>

    ghost predicate Valid()
      reads this
    {
      (counter.None? ==> results == []) && (counter.Some? ==> counter.value == StreakOf(results))
    }

    // Adds on the same side of zero; a change of side starts over at one.
    method Update(won: bool) returns (current: int)
      requires Valid()
      modifies this
      ensures Valid() && results == old(results) + [won]
      ensures current == StreakOf(results) && counter == Some(current)
    {
      assert (results + [won])[..|results|] == results;
      var delta := if won then 1 else 0 - 1;
      if counter.None? || (if won then counter.value >= 0 else counter.value <= 0) {
        counter := Some((if counter.Some? then counter.value else 0) + delta);
      } else {
        counter := Some(delta);
      }
      results := results + [won];
      current := counter.value;
    }
  }
}
