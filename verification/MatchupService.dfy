// One hand's deltas for every pair at the table, and the store that applies them.
module MatchupService {
  import opened Sums
  import opened Lex
  import opened Replies
  import opened Matchup
  import opened Sorting

  type PlayerId = string

  datatype Outcome = Outcome(
    participants: seq<PlayerId>,
    winners: seq<PlayerId>,
    payouts: map<PlayerId, int>,
    contributions: map<PlayerId, int>)

  datatype PairDelta = PairDelta(key: string, low: PlayerId, high: PlayerId, stats: Stats)

  // The pair's item key and its two ids in order, whoever is asking.
  function PairKey(mode: string, a: PlayerId, b: PlayerId): (r: (string, PlayerId, PlayerId))
    ensures (r.1 == a && r.2 == b) || (r.1 == b && r.2 == a)
    ensures !Less(r.2, r.1)
  {
    LessTrichotomy(a, b);
    var (low, high) := if Less(b, a) then (b, a) else (a, b);
    ("pair#" + mode + "#" + low + "#" + high, low, high)
  }

  lemma PairKeySymmetric(mode: string, a: PlayerId, b: PlayerId)
    ensures PairKey(mode, a, b) == PairKey(mode, b, a)
  {
    LessTrichotomy(a, b);
  }

  lemma Head(a: string, s: string)
    requires '#' !in a
    ensures var x := a + "#" + s;
      && (a == "" ==> x[0] == '#' && x[1..] == s)
      && (a != "" ==> x[0] == a[0] && x[0] != '#' && x[1..] == a[1..] + "#" + s && a == [a[0]] + a[1..])
  {
    if a != "" {
      assert a[0] in a;
      assert (a + "#" + s)[1..] == a[1..] + "#" + s;
    } else {
      assert (a + "#" + s)[1..] == s;
    }
  }

  // Text before the first separator determines both sides of it.
  lemma {:induction false} SplitOnce(a: string, s: string, b: string, t: string)
    requires '#' !in a && '#' !in b && a + "#" + s == b + "#" + t
    ensures a == b && s == t
    decreases |a|
  {
    Head(a, s);
    Head(b, t);
    if a != "" { SplitOnce(a[1..], s, b[1..], t); }
  }

  lemma KeySplits(mode: string, low: string, high: string, mode': string, low': string, high': string)
    requires '#' !in mode && '#' !in low && '#' !in mode' && '#' !in low'
    requires "pair#" + mode + "#" + low + "#" + high == "pair#" + mode' + "#" + low' + "#" + high'
    ensures mode == mode' && low == low' && high == high'
  {
    var rest, rest' := low + "#" + high, low' + "#" + high';
    assert "pair#" + mode + "#" + low + "#" + high == "pair" + "#" + (mode + "#" + rest);
    assert "pair#" + mode' + "#" + low' + "#" + high' == "pair" + "#" + (mode' + "#" + rest');
    SplitOnce("pair", mode + "#" + rest, "pair", mode' + "#" + rest');
    SplitOnce(mode, rest, mode', rest');
    SplitOnce(low, high, low', high');
  }

  // Different pairs never share an item, as long as no id or mode contains the
  // separator.
  lemma PairKeyInjective(mode: string, a: PlayerId, b: PlayerId, mode': string, a': PlayerId, b': PlayerId)
    requires '#' !in mode && '#' !in a && '#' !in b && '#' !in mode' && '#' !in a' && '#' !in b'
    ensures PairKey(mode, a, b).0 == PairKey(mode', a', b').0 <==>
      mode == mode' && ((a == a' && b == b') || (a == b' && b == a'))
  {
    hide Less;
    var (key, low, high) := PairKey(mode, a, b);
    var (key', low', high') := PairKey(mode', a', b');
    PairKeySymmetric(mode, a, b);
    if key == key' { KeySplits(mode, low, high, mode', low', high'); }
  }

  // What one hand means to one pair.
  function DeltaFor(mode: string, o: Outcome, a: PlayerId, b: PlayerId): PairDelta {
    var (key, low, high) := PairKey(mode, a, b);
    var wonLow, wonHigh := low in o.winners, high in o.winners;
    var headsUp := |o.participants| == 2;
    PairDelta(key, low, high, Stats(
      1,
      if wonLow && !wonHigh then 1 else 0,
      if wonHigh && !wonLow then 1 else 0,
      if wonLow && wonHigh then 1 else 0,
      if headsUp then 1 else 0,
      if headsUp then Get(o.payouts, low) - Get(o.contributions, low) else 0,
      if headsUp then Get(o.payouts, high) - Get(o.contributions, high) else 0))
  }

  predicate Counted(o: Outcome, at: (nat, nat)) {
    && at.0 < at.1 < |o.participants|
    && o.participants[at.0] != "" && o.participants[at.1] != ""
    && o.participants[at.0] != o.participants[at.1]
  }

  predicate Before(p: (nat, nat), q: (nat, nat)) { p.0 < q.0 || (p.0 == q.0 && p.1 < q.1) }

  // The deltas are those of the seat pairs listed in `at`.
  ghost predicate Lists(mode: string, o: Outcome, deltas: seq<PairDelta>, at: seq<(nat, nat)>) {
    && |deltas| == |at|
    && (forall k :: 0 <= k < |at| ==> Counted(o, at[k]))
    && (forall k :: 0 <= k < |at| ==> deltas[k] == DeltaFor(mode, o, o.participants[at[k].0], o.participants[at[k].1]))
    && (forall k, l :: 0 <= k < l < |at| ==> at[k] != at[l])
  }

  // Every pair of seats held by two different known players contributes exactly
  // one delta, in seat order.
  method DeltasFor(mode: string, o: Outcome) returns (deltas: seq<PairDelta>, ghost at: seq<(nat, nat)>)
    ensures Lists(mode, o, deltas, at)
    ensures forall p: (nat, nat) :: Counted(o, p) ==> p in at
    ensures forall d :: d in deltas ==> exists p: (nat, nat) :: Counted(o, p) && d == DeltaFor(mode, o, o.participants[p.0], o.participants[p.1])
  {
    deltas, at := [], [];
    if |o.participants| < 2 { return; }
    var winners: map<PlayerId, bool> := map[];
    for w := 0 to |o.winners|
      invariant forall id :: id in winners <==> id in o.winners[..w]
    {
      winners := winners[o.winners[w] := true];
    }
    assert o.winners[..|o.winners|] == o.winners;
    var headsUp := |o.participants| == 2;
    for i := 0 to |o.participants|
      invariant Lists(mode, o, deltas, at)
      invariant forall p: (nat, nat) :: p in at <==> Counted(o, p) && p.0 < i
    {
      for j := i + 1 to |o.participants|
        invariant Lists(mode, o, deltas, at)
        invariant forall p: (nat, nat) :: p in at <==> Counted(o, p) && Before(p, (i, j))
      {
        var a, b := o.participants[i], o.participants[j];
        if a == "" || b == "" || a == b { continue; }
        var (key, low, high) := PairKey(mode, a, b);
        var stats := ZERO.(hands := 1);
        if low in winners && high in winners {
          stats := stats.(ties := 1);
        } else if low in winners {
          stats := stats.(winsLow := 1);
        } else if high in winners {
          stats := stats.(winsHigh := 1);
        }
        if headsUp {
          stats := stats.(
            headsUpHands := 1,
            netLow := Get(o.payouts, low) - Get(o.contributions, low),
            netHigh := Get(o.payouts, high) - Get(o.contributions, high));
        }
        assert PairDelta(key, low, high, stats) == DeltaFor(mode, o, a, b);
        assert (i, j) !in at;
        deltas, at := deltas + [PairDelta(key, low, high, stats)], at + [(i, j)];
      }
    }
  }

  // Nobody sits twice: then no pair of players is counted twice in one hand.
  lemma EachPairOnce(mode: string, o: Outcome, deltas: seq<PairDelta>, at: seq<(nat, nat)>, k: nat, l: nat)
    requires Lists(mode, o, deltas, at) && k < l < |deltas|
    requires forall i, j :: 0 <= i < j < |o.participants| ==> o.participants[i] != o.participants[j]
    ensures (deltas[k].low, deltas[k].high) != (deltas[l].low, deltas[l].high)
  {
    var p, q := at[k], at[l];
    assert p != q && Counted(o, p) && Counted(o, q);
  }

  // Both seats of a pair see the same hand: of its players at most one of win,
  // loss and tie is counted, and chips only when they were alone.
  lemma DeltaMeaning(mode: string, o: Outcome, a: PlayerId, b: PlayerId)
    requires a != b
    ensures var d := DeltaFor(mode, o, a, b);
      && d == DeltaFor(mode, o, b, a)
      && d.stats.winsLow + d.stats.winsHigh + d.stats.ties == (if a in o.winners || b in o.winners then 1 else 0)
      && (d.stats.ties == 1 <==> a in o.winners && b in o.winners)
      && ((d.low == a && d.stats.winsLow == 1) || (d.high == a && d.stats.winsHigh == 1) <==> a in o.winners && b !in o.winners)
      && (|o.participants| != 2 ==> d.stats.netLow == 0 && d.stats.netHigh == 0)
      && ((d.low == a && d.high == b) || (d.low == b && d.high == a))
      && d.stats.hands == 1 && d.stats.headsUpHands == (if |o.participants| == 2 then 1 else 0)
      && (|o.participants| == 2 ==>
            (if d.low == a then d.stats.netLow else d.stats.netHigh) == Get(o.payouts, a) - Get(o.contributions, a))
      && (|o.participants| == 2 ==>
            (if d.low == b then d.stats.netLow else d.stats.netHigh) == Get(o.payouts, b) - Get(o.contributions, b))
  {
    PairKeySymmetric(mode, a, b);
  }

  // ---------- The bounded guard set ----------

  ghost predicate Ascending(s: seq<HandId>) { forall i, j :: 0 <= i < j < |s| ==> s[i] < s[j] }

  ghost function SetOf(s: seq<HandId>): set<HandId> { set h | h in s }

  ghost predicate Distinct(s: seq<HandId>) { forall i, j :: 0 <= i < j < |s| ==> s[i] != s[j] }

  lemma {:induction false} DistinctCount(s: seq<HandId>, x: HandId)
    requires Distinct(s)
    ensures multiset(s)[x] <= 1
    decreases |s|
  {
    if s != [] {
      var n := |s| - 1;
      DistinctCount(s[..n], x);
      assert s == s[..n] + [s[n]];
      assert s[n] !in s[..n];
      assert s[n] !in multiset(s[..n]);
    }
  }

  lemma PermDistinct(s: seq<HandId>, t: seq<HandId>)
    requires Perm(s, t) && Distinct(t)
    ensures Distinct(s)
  {
    forall i, j | 0 <= i < j < |s|
      ensures s[i] != s[j]
    {
      DistinctCount(t, s[i]);
      assert s == s[..j] + s[j..];
      assert s[i] in s[..j] && s[j] in s[j..];
      assert s[i] in multiset(s[..j]) && s[j] in multiset(s[j..]);
    }
  }

  lemma {:induction false} SetOfSize(s: seq<HandId>)
    requires Distinct(s)
    ensures |SetOf(s)| == |s|
    decreases |s|
  {
    if s != [] {
      var n := |s| - 1;
      SetOfSize(s[..n]);
      assert s == s[..n] + [s[n]];
      assert SetOf(s) == SetOf(s[..n]) + {s[n]};
    }
  }

  lemma NewerIs(s: set<HandId>, h: HandId, above: set<HandId>)
    requires forall g :: g in above <==> g in s && g > h
    ensures Newer(s, h) == |above|
  {
    assert (set g | g in s && g > h) == above;
  }

  // In a sorted list the ids above position i are those after it.
  lemma NewerByPosition(s: seq<HandId>, i: nat)
    requires Ascending(s) && i < |s|
    ensures Newer(SetOf(s), s[i]) == |s| - 1 - i
  {
    var after := s[i + 1..];
    forall g | g in SetOf(s) && g > s[i]
      ensures g in after
    {
      var k :| 0 <= k < |s| && s[k] == g;
      assert k > i;
      assert after[k - i - 1] == g;
    }
    forall g | g in after
      ensures g in SetOf(s) && g > s[i]
    {
      var k :| 0 <= k < |after| && after[k] == g;
      assert s[i + 1 + k] == g;
    }
    SetOfSize(after);
    NewerIs(SetOf(s), s[i], SetOf(after));
  }

  // Everything but the newest eight, and never the hand just applied.
  method StaleHandIDs(applied: seq<HandId>, keep: HandId) returns (stale: seq<HandId>)
    requires Distinct(applied)
    ensures SetOf(stale) == Stale(SetOf(applied), keep)
    ensures Ascending(stale)
  {
    var clone := new HandId[|applied|](i requires 0 <= i < |applied| => applied[i]);
    assert clone[..clone.Length] == clone[..] == applied;
    SortPrefix(clone, (x: HandId, y: HandId) => x < y, clone.Length);
    ghost var sorted := clone[..];
    assert clone[..clone.Length] == sorted;
    SameMembers(sorted, applied);
    PermDistinct(sorted, applied);
    hide Perm;
    stale := [];
    if |applied| <= KEEP {
      StaleIsPrefix(sorted, keep);
      return;
    }
    var cut := |applied| - KEEP;
    for i := 0 to cut
      invariant clone[..] == sorted
      invariant forall h :: h in stale <==> h in sorted[..i] && h != keep
      invariant Ascending(stale)
      invariant forall k, p :: 0 <= k < |stale| && i <= p < |sorted| ==> stale[k] < sorted[p]
    {
      if clone[i] != keep {
        stale := stale + [clone[i]];
      }
      assert sorted[..i + 1] == sorted[..i] + [sorted[i]];
    }
    StaleIsPrefix(sorted, keep);
  }

  lemma SameMembers(s: seq<HandId>, t: seq<HandId>)
    requires Perm(s, t)
    ensures SetOf(s) == SetOf(t) && |s| == |t|
  {
    forall h
      ensures h in s <==> h in t
    {
      assert h in s <==> h in multiset(s);
      assert h in t <==> h in multiset(t);
    }
    assert |multiset(s)| == |s| && |multiset(t)| == |t|;
  }

  lemma StaleIsPrefix(sorted: seq<HandId>, keep: HandId)
    requires Ascending(sorted)
    ensures var cut := if |sorted| <= KEEP then 0 else |sorted| - KEEP;
      forall h :: h in Stale(SetOf(sorted), keep) <==> h in sorted[..cut] && h != keep
  {
    var cut := if |sorted| <= KEEP then 0 else |sorted| - KEEP;
    forall h
      ensures h in Stale(SetOf(sorted), keep) <==> h in sorted[..cut] && h != keep
    {
      if h in sorted {
        var i :| 0 <= i < |sorted| && sorted[i] == h;
        NewerByPosition(sorted, i);
        assert h in sorted[..cut] <==> i < cut;
      } else {
        assert h !in sorted[..cut];
      }
    }
  }

  // ---------- The store ----------

  // One delivery to one pair with nobody else in between.
  function OneDelivery(row: Row, hand: HandId, delta: Stats, first: Reply, second: Reply): (Row, Pc) {
    var x := Advance(row, Applying(hand, delta), first);
    if x.1.Done? then x else Advance(x.0, x.1, second)
  }

  // With nobody in between and the prune landing, the guard set stays within its
  // cap and keeps the hand just applied.
  lemma DeliverKeepsCap(row: Row, hand: HandId, delta: Stats)
    requires |row.applied| <= CAP
    ensures var x := OneDelivery(row, hand, delta, Landed, Landed);
      |x.0.applied| <= CAP && hand in x.0.applied && x.1 == Done(true, {})
  {
    var after := row.applied + {hand};
    PruneLeavesFew(after, after, hand);
  }

  const BLANK := Row(ZERO, {})

  // The row as a delivery of `hand` with one of these deltas may leave it.
  ghost predicate CountedOnce(before: Row, after: Row, hand: HandId, key: string, deltas: seq<PairDelta>) {
    && hand !in before.applied && hand in after.applied
    && exists k :: 0 <= k < |deltas| && deltas[k].key == key && after.stats == Plus(before.stats, deltas[k].stats)
  }

  class Store {
    var rows: map<string, Row>

    function RowAt(key: string): Row
      reads this
    {
      if key in rows then rows[key] else BLANK
    }

    // The store lists a set in whatever order it likes.
    method Listed(ids: set<HandId>) returns (list: seq<HandId>)
      ensures SetOf(list) == ids && Distinct(list)
    {
      list := [];
      var rest := ids;
      while rest != {}
        invariant SetOf(list) == ids - rest && rest <= ids && Distinct(list)
      {
        var id :| id in rest;
        assert id !in SetOf(list);
        assert SetOf(list + [id]) == SetOf(list) + {id};
        list, rest := list + [id], rest - {id};
      }
    }

    method ApplyPair(hand: HandId, d: PairDelta, first: Reply, second: Reply) returns (ok: bool)
      modifies this
      ensures var x := OneDelivery(old(RowAt(d.key)), hand, d.stats, first, second);
        RowAt(d.key) == x.0 && x.1.Done? && ok == x.1.ok
      ensures forall key :: key != d.key ==> RowAt(key) == old(RowAt(key))
    {
      hide Stale;
      if first == Refused { return false; }
      var row := RowAt(d.key);
      if hand in row.applied { return true; }
      row := Row(Plus(row.stats, d.stats), row.applied + {hand});
      rows := rows[d.key := row];
      if first == Lost { return false; }
      PruneApplied(d.key, hand, row.applied, second);
      ok := true;
    }

    method PruneApplied(key: string, hand: HandId, image: set<HandId>, reply: Reply)
      requires key in rows
      modifies this
      ensures rows == if |image| <= CAP || reply == Refused then old(rows)
                      else old(rows)[key := old(rows)[key].(applied := old(rows)[key].applied - Stale(image, hand))]
    {
      if |image| <= CAP { return; }
      var list := Listed(image);
      var stale := StaleHandIDs(list, hand);
      if reply != Refused {
        rows := rows[key := rows[key].(applied := set h | h in rows[key].applied && h !in stale)];
        assert forall h :: h in stale <==> h in SetOf(stale);
        assert rows[key].applied == old(rows)[key].applied - Stale(image, hand);
      }
    }

    // Every pair at the table, stopping at the first failure. A pair counts the
    // hand once or not at all, a pair that already had it is untouched, and
    // success means every pair has it, however often and far earlier attempts got.
    // A hand without an id is ignored.
    method RecordHand(mode: string, id: Option<HandId>, o: Outcome, replies: nat -> (Reply, Reply))
      returns (ok: bool, ghost deltas: seq<PairDelta>, ghost at: seq<(nat, nat)>)
      modifies this
      ensures id.None? ==> ok && rows == old(rows)
      ensures id.Some? ==> Lists(mode, o, deltas, at) && forall p: (nat, nat) :: Counted(o, p) ==> p in at
      ensures id.Some? ==> forall key ::
        RowAt(key) == old(RowAt(key)) || CountedOnce(old(RowAt(key)), RowAt(key), id.value, key, deltas)
      ensures id.Some? && ok ==> forall k :: 0 <= k < |deltas| ==> id.value in RowAt(deltas[k].key).applied
      ensures (forall k :: replies(k).0 == Landed) ==> ok
    {
      hide Lists, OneDelivery, CountedOnce, Stale;
      if id.None? { return true, [], []; }
      var hand := id.value;
      var ds;
      ds, at := DeltasFor(mode, o);
      deltas := ds;
      var i := 0;
      while i < |ds|
        invariant i <= |ds|
        invariant forall key :: RowAt(key) == old(RowAt(key)) || CountedOnce(old(RowAt(key)), RowAt(key), hand, key, ds)
        invariant forall k :: 0 <= k < i ==> hand in RowAt(ds[k].key).applied
      {
        ghost var before := RowAt(ds[i].key);
        var done := ApplyPair(hand, ds[i], replies(i).0, replies(i).1);
        DeliverCounts(before, hand, ds, i, replies(i).0, replies(i).1);
        StaysCounted(old(RowAt(ds[i].key)), before, RowAt(ds[i].key), hand, ds[i].key, ds);
        if !done { return false, deltas, at; }
        i := i + 1;
      }
      ok := true;
    }
  }

  // A delivery leaves a row that already has the hand alone, and otherwise adds
  // its delta and the hand together or does nothing.
  lemma DeliverCounts(row: Row, hand: HandId, deltas: seq<PairDelta>, i: nat, first: Reply, second: Reply)
    requires i < |deltas|
    ensures var x := OneDelivery(row, hand, deltas[i].stats, first, second);
      && (x.0 == row || CountedOnce(row, x.0, hand, deltas[i].key, deltas))
      && (x.1.Done? && x.1.ok ==> hand in x.0.applied)
      && (first == Landed ==> x.1.Done? && x.1.ok)
      && (hand in row.applied ==> x.0 == row)
  {
  }

  lemma StaysCounted(first: Row, before: Row, after: Row, hand: HandId, key: string, deltas: seq<PairDelta>)
    requires before == first || CountedOnce(first, before, hand, key, deltas)
    requires after == before || CountedOnce(before, after, hand, key, deltas)
    requires hand in before.applied ==> after == before
    ensures after == first || CountedOnce(first, after, hand, key, deltas)
    ensures hand in before.applied ==> hand in after.applied
  {
  }
}
