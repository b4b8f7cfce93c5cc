// The sorted-set mirror's lifecycle, and the page of best players.
module RankService {
  import opened Sums
  import opened Replies
  import opened Lex
  import opened Rank
  import opened Sorting

  const CHUNK := 500

  // The sorted set a list of members adds up to; a repeated id keeps its last score.
  function MirrorOf(members: seq<Member>): Mirror {
    if members == [] then map[]
    else
      var last := members[|members| - 1];
      MirrorOf(members[..|members| - 1])[last.id := 0.0 - last.score]
  }

  lemma {:induction false} MirrorOfBoard(members: seq<Member>)
    requires DistinctIds(SetOf(members))
    ensures Mirrors(MirrorOf(members), SetOf(members))
    decreases |members|
  {
    hide Mirrors, DistinctIds, SetOf;
    if members == [] {
      EmptyMirror();
    } else {
      var n := |members| - 1;
      SetOfLast(members);
      FewerAreDistinct(SetOf(members[..n]), members[n]);
      MirrorOfBoard(members[..n]);
      MirrorGrows(MirrorOf(members[..n]), SetOf(members[..n]), members[n]);
    }
  }

  lemma EmptyMirror()
    ensures Mirrors(map[], SetOf([]))
  {
  }

  lemma SetOfLast(members: seq<Member>)
    requires members != []
    ensures SetOf(members) == SetOf(members[..|members| - 1]) + {members[|members| - 1]}
  {
    assert members == members[..|members| - 1] + [members[|members| - 1]];
  }

  lemma FewerAreDistinct(board: Board, m: Member)
    requires DistinctIds(board + {m})
    ensures DistinctIds(board)
  {
  }

  lemma MirrorGrows(z: Mirror, board: Board, m: Member)
    requires Mirrors(z, board) && DistinctIds(board + {m})
    ensures Mirrors(z[m.id := 0.0 - m.score], board + {m})
  {
  }

  // A mirror that is right about everybody but one player is right about
  // everybody once that player's own score is written into it.
  lemma RefreshMirrors(z: Mirror, stale: Board, board: Board, own: Member)
    requires DistinctIds(board) && own in board && Mirrors(z, stale)
    requires forall m: Member :: m.id != own.id ==> (m in stale <==> m in board)
    ensures Mirrors(z[own.id := 0.0 - own.score], board)
  {
  }

  class RankMirror {
    var live: Option<Mirror>
    var scratch: Mirror
    var building: bool

    // Only the first caller rebuilds.
    method ClaimRebuild(reachable: bool) returns (claimed: bool)
      modifies this`building
      ensures claimed <==> reachable && !old(building)
      ensures building == (claimed || old(building))
    {
      if !reachable || building { return false; }
      building := true;
      claimed := true;
    }

    // Writes a scratch set in chunks and renames it over the live one: readers
    // see the old board or the whole new one, whichever command fails. `answers`
    // says whether each command in turn succeeds.
    method Publish(members: seq<Member>, answers: nat -> bool) returns (ok: bool)
      modifies this
      ensures live == (if ok && members != [] then Some(MirrorOf(members)) else old(live))
      ensures !building
      ensures (forall n :: answers(n)) ==> ok
    {
      building := false;
      if members == [] { return true; }
      if !answers(0) { return false; }
      scratch := map[];
      var start, command := 0, 1;
      while start < |members|
        invariant start <= |members| && command >= 1
        invariant scratch == MirrorOf(members[..start])
        invariant live == old(live) && !building
        decreases |members| - start
      {
        var end := if start + CHUNK > |members| then |members| else start + CHUNK;
        if !answers(command) { return false; }
        AddAll(members, start, end);
        start, command := end, command + 1;
      }
      assert members[..start] == members;
      if !answers(command) || !answers(command + 1) { return false; }
      live, scratch := Some(scratch), map[];
      ok := true;
    }

    method AddAll(members: seq<Member>, start: nat, end: nat)
      requires start <= end <= |members| && scratch == MirrorOf(members[..start])
      modifies this`scratch
      ensures scratch == MirrorOf(members[..end])
    {
      for i := start to end
        invariant scratch == MirrorOf(members[..i])
      {
        assert members[..i + 1][..i] == members[..i];
        scratch := scratch[members[i].id := 0.0 - members[i].score];
      }
    }

    // Refreshes the caller's own entry, then reads its position and the size.
    method RankOf(id: PlayerId, score: real) returns (answer: Option<(nat, nat)>)
      modifies this`live
      ensures old(live).None? ==> answer.None? && live.None?
      ensures old(live).Some? ==> answer.Some? && live == Some(old(live).value[id := 0.0 - score])
      ensures forall stale, board :: Answers(old(live), stale, board, Member(id, score)) ==>
        answer == Some((RankByCount(board, Member(id, score)), |board|))
    {
      hide ZRank, RankByCount;
      if live.None? { return None; }
      hide Answers;
      ghost var before := live;
      live := Some(live.value[id := 0.0 - score]);
      answer := Some((ZRank(live.value, id) + 1, |live.value|));
      forall stale, board | Answers(before, stale, board, Member(id, score))
        ensures answer == Some((RankByCount(board, Member(id, score)), |board|))
      {
        AnswerIsExact(before, stale, board, Member(id, score));
      }
    }
  }

  lemma AnswerIsExact(live: Option<Mirror>, stale: Board, board: Board, own: Member)
    requires Answers(live, stale, board, own)
    ensures var z := live.value[own.id := 0.0 - own.score];
      ZRank(z, own.id) + 1 == RankByCount(board, own) && |z| == |board|
  {
    hide RankByCount, ZRank;
    var z := live.value[own.id := 0.0 - own.score];
    RefreshMirrors(live.value, stale, board, own);
    MirrorAgrees(z, board, own);
  }

  // The mirror shows `stale`, which is the board but for the caller's own row.
  ghost predicate Answers(live: Option<Mirror>, stale: Board, board: Board, own: Member) {
    && live.Some? && Mirrors(live.value, stale)
    && DistinctIds(board) && own in board
    && forall m: Member :: m.id != own.id ==> (m in stale <==> m in board)
  }

  // Every row of the index with a player id, page by page up to the page cap.
  method LoadBoardMembers(pages: seq<seq<Member>>) returns (members: seq<Member>)
    ensures members == Named(Flat(if |pages| <= MAX_PAGES then pages else pages[..MAX_PAGES]))
  {
    members := [];
    var page := 0;
    while page < MAX_PAGES
      invariant page <= MAX_PAGES && page <= |pages|
      invariant members == Named(Flat(pages[..page]))
    {
      if page >= |pages| { break; }
      assert pages[..page + 1][..page] == pages[..page];
      ghost var before := members;
      for i := 0 to |pages[page]|
        invariant members == before + Named(pages[page][..i])
      {
        assert pages[page][..i + 1][..i] == pages[page][..i];
        if pages[page][i].id == "" { continue; }
        members := members + [pages[page][i]];
      }
      assert pages[page][..|pages[page]|] == pages[page];
      NamedAppend(Flat(pages[..page]), pages[page]);
      page := page + 1;
    }
    assert page == |pages| ==> pages[..page] == pages;
  }

  function Named(rows: seq<Member>): seq<Member> {
    if rows == [] then []
    else
      var last := rows[|rows| - 1];
      Named(rows[..|rows| - 1]) + (if last.id == "" then [] else [last])
  }

  // Nobody with an id is dropped or repeated, and nobody without one is kept.
  lemma {:induction false} NamedMembers(rows: seq<Member>, m: Member)
    ensures multiset(Named(rows))[m] == if m.id == "" then 0 else multiset(rows)[m]
    decreases |rows|
  {
    if rows != [] {
      var n := |rows| - 1;
      NamedMembers(rows[..n], m);
      assert rows == rows[..n] + [rows[n]];
    }
  }

  lemma {:induction false} NamedAppend(a: seq<Member>, b: seq<Member>)
    ensures Named(a + b) == Named(a) + Named(b)
    decreases |b|
  {
    if b == [] {
      assert a + b == a;
    } else {
      NamedAppend(a, b[..|b| - 1]);
      assert (a + b)[..|a + b| - 1] == a + b[..|b| - 1];
    }
  }

  // ---------- The page of best players ----------

  datatype Metric = HandsWon | HandsPlayed | WinRate

  datatype Entry = Entry(id: PlayerId, played: nat, won: nat, rate: real)

  const MIN_HANDS := 100

  // A metric is one of three, the empty one meaning hands won.
  function NormalizeMetric(metric: string): Option<Metric> {
    if metric == "" || metric == "hands_won" then Some(HandsWon)
    else if metric == "hands_played" then Some(HandsPlayed)
    else if metric == "win_rate" then Some(WinRate)
    else None
  }

  // The stored rate gives way to that of the counters.
  function Fresh(e: Entry): Entry {
    if e.played > 0 then e.(rate := e.won as real / e.played as real) else e
  }

  function ScoreOf(metric: Metric, e: Entry): real {
    match metric
    case HandsWon => e.won as real
    case HandsPlayed => e.played as real
    case WinRate => e.rate
  }

  function MemberOf(metric: Metric, e: Entry): Member { Member(e.id, ScoreOf(metric, e)) }

  predicate Kept(metric: Metric, e: Entry) { metric == WinRate ==> e.played >= MIN_HANDS }

  function Filter(metric: Metric, s: seq<Entry>): seq<Entry> {
    if s == [] then []
    else
      var last := s[|s| - 1];
      Filter(metric, s[..|s| - 1]) + (if Kept(metric, last) then [last] else [])
  }

  function FreshAll(s: seq<Entry>): seq<Entry> { seq(|s|, i requires 0 <= i < |s| => Fresh(s[i])) }

  function Limit(limit: int): nat { if limit <= 0 then 50 else if limit > 100 then 100 else limit }

  // Best first.
  function Best(metric: Metric): (Entry, Entry) -> bool { (x, y) => Ahead(MemberOf(metric, x), MemberOf(metric, y)) }

  lemma BestIsOrder(metric: Metric)
    ensures IsOrder(Best(metric))
  {
    var best := Best(metric);
    forall x, y | best(x, y) ensures !best(y, x) { AheadTotal(MemberOf(metric, x), MemberOf(metric, y)); }
    forall x, y, z | !best(y, x) && !best(z, y) ensures !best(z, x) {
      NotAheadChain(MemberOf(metric, x), MemberOf(metric, y), MemberOf(metric, z));
    }
  }

  lemma NotAheadChain(a: Member, b: Member, c: Member)
    requires !Ahead(b, a) && !Ahead(c, b)
    ensures !Ahead(c, a)
  {
    hide Less;
    LessTrichotomy(a.id, b.id);
    LessTrichotomy(b.id, c.id);
    LessTrichotomy(a.id, c.id);
    if Less(a.id, b.id) && Less(b.id, c.id) { LessTransitive(a.id, b.id, c.id); }
  }

  // Filters and sorts the fetched rows in place, then cuts the page. An unknown
  // metric is an error.
  method Top(metric: string, limit: int, entries: array<Entry>) returns (page: Option<seq<Entry>>, ghost all: seq<Entry>)
    modifies entries
    ensures page.None? <==> metric !in {"", "hands_won", "hands_played", "win_rate"}
    ensures page.Some? ==> NormalizeMetric(metric).Some?
    ensures page.Some? ==>
      var m := NormalizeMetric(metric).value;
      && Perm(all, Filter(m, FreshAll(old(entries[..])))) && Sorted(all, Best(m))
      && page.value == all[..if |all| > Limit(limit) then Limit(limit) else |all|]
    ensures page.Some? ==> Shown(metric, limit, |all|, page.value)
  {
    var m := NormalizeMetric(metric);
    all := [];
    if m.None? { return None, []; }
    hide Perm, Sorted, IsOrder, Best, Filter, Fresh, FreshAll, Shown;
    Freshen(entries);
    var kept := KeepInPlace(m.value, entries);
    BestIsOrder(m.value);
    SortPrefix(entries, Best(m.value), kept);
    all := entries[..kept];
    var size := if kept > Limit(limit) then Limit(limit) else kept;
    page := Some(entries[..size]);
    assert page.value == all[..size];
    PageMeaning(metric, limit, old(entries[..]), all);
  }

  // What the metric's name promises of two rows on a page: the larger of its counter
  // or rate first, and the smaller id first on a tie.
  predicate Precedes(metric: string, x: Entry, y: Entry) {
    && (metric == "hands_played" ==> x.played > y.played || (x.played == y.played && !Less(y.id, x.id)))
    && (metric == "hands_won" || metric == "" ==> x.won > y.won || (x.won == y.won && !Less(y.id, x.id)))
    && (metric == "win_rate" ==> x.rate > y.rate || (x.rate == y.rate && !Less(y.id, x.id)))
  }

  function AtMost(most: nat, n: nat): nat { if n > most then most else n }

  // The rate shown is that of the counters shown, and a win-rate page has qualified
  // players only.
  predicate Truthful(metric: string, e: Entry) {
    && (e.played > 0 ==> e.rate == e.won as real / e.played as real)
    && (metric == "win_rate" ==> e.played >= 100)
  }

  ghost predicate Shown(metric: string, limit: int, eligible: nat, page: seq<Entry>) {
    && (forall i, j :: 0 <= i < j < |page| ==> Precedes(metric, page[i], page[j]))
    && (forall e :: e in page ==> Truthful(metric, e))
    && (limit <= 0 ==> |page| == AtMost(50, eligible))
    && (1 <= limit <= 100 ==> |page| == AtMost(limit, eligible))
    && (limit > 100 ==> |page| == AtMost(100, eligible))
  }

  lemma PageMeaning(metric: string, limit: int, fetched: seq<Entry>, all: seq<Entry>)
    requires NormalizeMetric(metric).Some?
    requires Perm(all, Filter(NormalizeMetric(metric).value, FreshAll(fetched)))
    requires Sorted(all, Best(NormalizeMetric(metric).value))
    ensures Shown(metric, limit, |all|, all[..if |all| > Limit(limit) then Limit(limit) else |all|])
  {
    hide Precedes, Truthful, Perm, Sorted, Best, Filter, FreshAll, NormalizeMetric;
    PageInOrder(metric, all);
    RowsAreFresh(metric, fetched, all);
  }

  lemma PageInOrder(metric: string, all: seq<Entry>)
    requires NormalizeMetric(metric).Some? && Sorted(all, Best(NormalizeMetric(metric).value))
    ensures forall i, j :: 0 <= i < j < |all| ==> Precedes(metric, all[i], all[j])
  {
    var m := NormalizeMetric(metric).value;
    forall i, j | 0 <= i < j < |all|
      ensures Precedes(metric, all[i], all[j])
    {
      assert !Best(m)(all[j], all[i]);
    }
  }

  lemma RowsAreFresh(metric: string, fetched: seq<Entry>, all: seq<Entry>)
    requires NormalizeMetric(metric).Some?
    requires Perm(all, Filter(NormalizeMetric(metric).value, FreshAll(fetched)))
    ensures forall e :: e in all ==> Truthful(metric, e)
  {
    var m := NormalizeMetric(metric).value;
    var renewed := FreshAll(fetched);
    forall e | e in all
      ensures Truthful(metric, e)
    {
      assert e in multiset(all);
      assert e in Filter(m, renewed);
      FilterTakes(m, renewed, e);
    }
  }

  lemma {:induction false} FilterTakes(metric: Metric, s: seq<Entry>, e: Entry)
    ensures e in Filter(metric, s) <==> e in s && Kept(metric, e)
    decreases |s|
  {
    if s != [] {
      FilterTakes(metric, s[..|s| - 1], e);
      assert s == s[..|s| - 1] + [s[|s| - 1]];
    }
  }

  method Freshen(a: array<Entry>)
    modifies a
    ensures a[..] == FreshAll(old(a[..]))
  {
    hide Fresh;
    for i := 0 to a.Length
      invariant forall k :: 0 <= k < a.Length ==> a[k] == if k < i then Fresh(old(a[k])) else old(a[k])
    {
      a[i] := Fresh(a[i]);
    }
  }

  // Kept rows slide over the dropped ones before them.
  method KeepInPlace(metric: Metric, a: array<Entry>) returns (kept: nat)
    modifies a
    ensures kept <= a.Length && a[..kept] == Filter(metric, old(a[..]))
  {
    ghost var s := a[..];
    kept := 0;
    for i := 0 to a.Length
      invariant kept <= i && a[..kept] == Filter(metric, s[..i])
      invariant forall k :: i <= k < a.Length ==> a[k] == s[k]
    {
      assert s[..i + 1][..i] == s[..i];
      if metric != WinRate || a[i].played >= MIN_HANDS {
        a[kept] := a[i];
        kept := kept + 1;
      }
    }
    assert s[..a.Length] == s;
  }

  // When the page was cut from the whole board, a player's place on it is the
  // rank that counting rows reports.
  lemma PageShowsRanks(metric: Metric, all: seq<Entry>, i: nat)
    requires Sorted(all, Best(metric)) && i < |all|
    requires forall j, k :: 0 <= j < k < |all| ==> all[j].id != all[k].id
    ensures var members := seq(|all|, j requires 0 <= j < |all| => MemberOf(metric, all[j]));
      RankByCount(SetOf(members), members[i]) == i + 1
  {
    hide Less, RankByCount, ScoreOf;
    var members := seq(|all|, j requires 0 <= j < |all| => MemberOf(metric, all[j]));
    forall j, k | 0 <= j < k < |members|
      ensures Ahead(members[j], members[k])
    {
      assert !Best(metric)(all[k], all[j]);
      AheadTotal(members[j], members[k]);
    }
    CountIsIndex(SetOf(members), members, i);
  }

  // ---------- Counting a hand ----------

  // Counters per player and period: the lifetime board and the current month's.
  datatype Counters = Counters(played: nat, won: nat)

  function Counted(c: Counters, counts: bool, won: bool): Counters {
    if counts then Counters(c.played + 1, c.won + if won then 1 else 0) else c
  }

  datatype Scope = Lifetime | Month(month: nat)

  class StatsService {
    var rows: map<(PlayerId, Scope), Counters>

    function At(id: PlayerId, scope: Scope): Counters
      reads this
    {
      if (id, scope) in rows then rows[(id, scope)] else Counters(0, 0)
    }

    method IncrementStats(id: PlayerId, scope: Scope, won: bool, reply: Reply) returns (ok: bool)
      modifies this
      ensures ok <==> reply == Landed
      ensures At(id, scope) == Counted(old(At(id, scope)), reply.Applied(), won)
      ensures forall i, s :: (i, s) != (id, scope) ==> At(i, s) == old(At(i, s))
    {
      var c := At(id, scope);
      if reply.Applied() {
        rows := rows[(id, scope) := Counters(c.played + 1, c.won + if won then 1 else 0)];
      }
      ok := reply == Landed;
    }

    // One hand for every participant on both boards, once even if listed twice. It
    // stops at the first write that fails, and counts nobody twice either way.
    method RecordHand(participants: seq<PlayerId>, winners: seq<PlayerId>, month: nat, replies: nat -> Reply) returns (ok: bool)
      modifies this
      ensures ok ==> forall id, s ::
        At(id, s) == Counted(old(At(id, s)), id in participants && id != "" && (s == Lifetime || s == Month(month)), id in winners)
      ensures forall id, s ::
        At(id, s) == old(At(id, s)) ||
        (id in participants && id != "" && (s == Lifetime || s == Month(month)) && At(id, s) == Counted(old(At(id, s)), true, id in winners))
      ensures (forall n :: replies(n) == Landed) ==> ok
      ensures ok ==> forall id ::
        At(id, Lifetime).played == old(At(id, Lifetime).played) + (if id in participants && id != "" then 1 else 0)
      ensures ok ==> forall id ::
        At(id, Lifetime).won == old(At(id, Lifetime).won) + (if id in participants && id in winners && id != "" then 1 else 0)
    {
      var seen: set<PlayerId> := {};
      var writes := 0;
      for n := 0 to |participants|
        invariant forall id :: id in seen <==> id in participants[..n] && id != ""
        invariant forall id, s ::
          At(id, s) == Counted(old(At(id, s)), id in seen && (s == Lifetime || s == Month(month)), id in winners)
      {
        var id := participants[n];
        assert participants[..n + 1] == participants[..n] + [id];
        if id == "" || id in seen { continue; }
        seen := seen + {id};
        var written := IncrementStats(id, Lifetime, id in winners, replies(writes));
        if !written { return false; }
        written := IncrementStats(id, Month(month), id in winners, replies(writes + 1));
        if !written { return false; }
        writes := writes + 2;
      }
      assert participants[..|participants|] == participants;
      ok := true;
    }
  }
}
