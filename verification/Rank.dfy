// A player's place on a leaderboard, computed in two unrelated ways: by counting
// rows of the index, and by position in a sorted-set mirror of it.
module Rank {
  import opened Lex

  type PlayerId = string

  datatype Member = Member(id: PlayerId, score: real)

  type Board = set<Member>

  ghost predicate DistinctIds(board: Board) {
    forall x, y :: x in board && y in board && x.id == y.id ==> x == y
  }

  // Higher score first; a tie goes to the smaller id.
  predicate Ahead(x: Member, y: Member) { x.score > y.score || (x.score == y.score && Less(x.id, y.id)) }

  lemma AheadTotal(x: Member, y: Member)
    ensures !(Ahead(x, y) && Ahead(y, x))
    ensures x.id != y.id ==> Ahead(x, y) || Ahead(y, x)
    ensures x.id == y.id && x.score == y.score ==> !Ahead(x, y)
  {
    LessTrichotomy(x.id, y.id);
  }

  lemma AheadTransitive(x: Member, y: Member, z: Member)
    requires Ahead(x, y) && Ahead(y, z)
    ensures Ahead(x, z)
  {
    if x.score == y.score == z.score { LessTransitive(x.id, y.id, z.id); }
  }

  ghost predicate Ordered(s: seq<Member>) { forall i, j :: 0 <= i < j < |s| ==> Ahead(s[i], s[j]) }

  ghost function SetOf(s: seq<Member>): Board { set x | x in s }

  // ---------- Rank by counting ----------

  ghost function Better(board: Board, m: Member): Board { set x | x in board && x.score > m.score }

  ghost function TiedBefore(board: Board, m: Member): Board {
    set x | x in board && x.score == m.score && Less(x.id, m.id)
  }

  ghost function RankByCount(board: Board, m: Member): nat { |Better(board, m)| + |TiedBefore(board, m)| + 1 }

  ghost function AllAhead(board: Board, m: Member): Board { set x | x in board && Ahead(x, m) }

  lemma RankCountsAhead(board: Board, m: Member)
    ensures RankByCount(board, m) == |AllAhead(board, m)| + 1
  {
    assert AllAhead(board, m) == Better(board, m) + TiedBefore(board, m);
  }

  lemma {:induction false} OrderedSize(s: seq<Member>)
    requires Ordered(s)
    ensures |SetOf(s)| == |s|
    decreases |s|
  {
    if s != [] {
      var n := |s| - 1;
      OrderedSize(s[..n]);
      assert s == s[..n] + [s[n]];
      assert SetOf(s) == SetOf(s[..n]) + {s[n]};
      if s[n] in s[..n] {
        var i :| 0 <= i < n && s[i] == s[n];
        AheadTotal(s[i], s[n]);
      }
    }
  }

  // Whatever listing of the board is in rank order, the count is the 1-based
  // index there.
  lemma CountIsIndex(board: Board, s: seq<Member>, i: nat)
    requires Ordered(s) && SetOf(s) == board && i < |s|
    ensures RankByCount(board, s[i]) == i + 1
  {
    hide Ahead;
    var before := s[..i];
    forall x
      ensures x in AllAhead(board, s[i]) <==> x in SetOf(before)
    {
      if x in AllAhead(board, s[i]) {
        var j :| 0 <= j < |s| && s[j] == x;
        AheadTotal(s[i], s[j]);
        assert j < i;
        assert before[j] == x;
      }
    }
    assert AllAhead(board, s[i]) == SetOf(before);
    OrderedSize(before);
    RankCountsAhead(board, s[i]);
  }

  ghost function Insert(s: seq<Member>, m: Member): seq<Member> {
    if s == [] then [m]
    else if Ahead(m, s[0]) then [m] + s
    else [s[0]] + Insert(s[1..], m)
  }

  lemma {:induction false} InsertOrders(s: seq<Member>, m: Member)
    requires Ordered(s) && forall x :: x in s ==> x.id != m.id
    ensures Ordered(Insert(s, m)) && SetOf(Insert(s, m)) == SetOf(s) + {m}
    decreases |s|
  {
    hide Ahead;
    if s != [] {
      var rest := s[1..];
      assert s == [s[0]] + rest;
      AheadTotal(m, s[0]);
      if Ahead(m, s[0]) {
        forall j | 0 <= j < |s| ensures Ahead(m, s[j]) { if j > 0 { AheadTransitive(m, s[0], s[j]); } }
      } else {
        InsertOrders(rest, m);
        var t := Insert(rest, m);
        forall j | 0 <= j < |t| ensures Ahead(s[0], t[j]) {
          assert t[j] in SetOf(t);
          if t[j] != m {
            var k :| 0 <= k < |rest| && rest[k] == t[j];
            assert s[k + 1] == t[j];
          }
        }
      }
    }
  }

  lemma {:induction false} Ranked(board: Board) returns (s: seq<Member>)
    requires DistinctIds(board)
    ensures Ordered(s) && SetOf(s) == board
    decreases board
  {
    s := [];
    if board != {} {
      var m :| m in board;
      s := Ranked(board - {m});
      assert forall x :: x in s ==> x in SetOf(s);
      InsertOrders(s, m);
      s := Insert(s, m);
    }
  }

  // Ranks number the board from 1 to its size: everybody has one of them,
  lemma RankInRange(board: Board, m: Member)
    requires DistinctIds(board) && m in board
    ensures 1 <= RankByCount(board, m) <= |board|
  {
    var s, i := Placed(board, m);
  }

  // nobody shares one,
  lemma RanksDiffer(board: Board, m: Member, n: Member)
    requires DistinctIds(board) && m in board && n in board && m != n
    ensures RankByCount(board, m) != RankByCount(board, n)
  {
    var s := Ranked(board);
    assert m in s && n in s;
    var i :| 0 <= i < |s| && s[i] == m;
    var j :| 0 <= j < |s| && s[j] == n;
    CountIsIndex(board, s, i);
    CountIsIndex(board, s, j);
  }

  // and none is skipped.
  lemma EveryRankTaken(board: Board, r: nat) returns (m: Member)
    requires DistinctIds(board) && 1 <= r <= |board|
    ensures m in board && RankByCount(board, m) == r
  {
    var s := Ranked(board);
    OrderedSize(s);
    m := s[r - 1];
    CountIsIndex(board, s, r - 1);
    assert m in SetOf(s);
  }

  // A member's place in a listing of the whole board.
  lemma Placed(board: Board, m: Member) returns (s: seq<Member>, i: nat)
    requires DistinctIds(board) && m in board
    ensures Ordered(s) && SetOf(s) == board && |s| == |board|
    ensures i < |s| && s[i] == m && RankByCount(board, m) == i + 1
  {
    s := Ranked(board);
    OrderedSize(s);
    assert m in s;
    i :| 0 <= i < |s| && s[i] == m;
    CountIsIndex(board, s, i);
  }

  // Better members have smaller ranks.
  lemma RankFollowsOrder(board: Board, x: Member, y: Member)
    requires DistinctIds(board) && x in board && y in board
    ensures Ahead(x, y) <==> RankByCount(board, x) < RankByCount(board, y)
  {
    hide RankByCount, Ahead;
    var s := Ranked(board);
    assert x in s && y in s;
    var i :| 0 <= i < |s| && s[i] == x;
    var j :| 0 <= j < |s| && s[j] == y;
    CountIsIndex(board, s, i);
    CountIsIndex(board, s, j);
    AheadTotal(x, y);
  }

  // ---------- Rank by position in the mirror ----------

  // The mirror keeps each member's negated score.
  type Mirror = map<PlayerId, real>

  // The sorted set's own order: score ascending, then id ascending.
  predicate Lower(z: Mirror, a: PlayerId, b: PlayerId)
    requires a in z && b in z
  {
    z[a] < z[b] || (z[a] == z[b] && Less(a, b))
  }

  // The 0-based position of a member.
  function ZRank(z: Mirror, id: PlayerId): nat
    requires id in z
  {
    |set x | x in z && Lower(z, x, id)|
  }

  ghost predicate Mirrors(z: Mirror, board: Board) {
    && (forall m :: m in board ==> m.id in z && z[m.id] == 0.0 - m.score)
    && (forall id :: id in z ==> Member(id, 0.0 - z[id]) in board)
  }

  lemma {:induction false} SameSize(board: Board, ids: set<PlayerId>)
    requires DistinctIds(board)
    requires forall m :: m in board ==> m.id in ids
    requires forall id :: id in ids ==> exists m :: m in board && m.id == id
    ensures |board| == |ids|
    decreases board
  {
    if board == {} {
      assert ids == {};
    } else {
      var m :| m in board;
      forall id | id in ids - {m.id}
        ensures exists n :: n in board - {m} && n.id == id
      {
        var n :| n in board && n.id == id;
        assert n in board - {m};
      }
      SameSize(board - {m}, ids - {m.id});
    }
  }

  // Position plus one in the mirror is the rank by counting, and the mirror's
  // size is the total.
  lemma MirrorAgrees(z: Mirror, board: Board, m: Member)
    requires DistinctIds(board) && Mirrors(z, board) && m in board
    ensures ZRank(z, m.id) + 1 == RankByCount(board, m)
    ensures |z| == |board|
  {
    var ahead, lower := AllAhead(board, m), set x | x in z && Lower(z, x, m.id);
    forall id | id in lower
      ensures exists n :: n in ahead && n.id == id
    {
      assert Member(id, 0.0 - z[id]) in ahead;
    }
    SameSize(ahead, lower);
    forall id | id in z.Keys
      ensures exists n :: n in board && n.id == id
    {
      assert Member(id, 0.0 - z[id]) in board;
    }
    SameSize(board, z.Keys);
    RankCountsAhead(board, m);
  }

  // ---------- Counting by pages ----------

  const MAX_PAGES := 200

  function Count(rows: seq<Member>, p: Member -> bool): nat {
    if rows == [] then 0 else Count(rows[..|rows| - 1], p) + (if p(rows[|rows| - 1]) then 1 else 0)
  }

  function Flat(pages: seq<seq<Member>>): seq<Member> {
    if pages == [] then [] else Flat(pages[..|pages| - 1]) + pages[|pages| - 1]
  }

  lemma {:induction false} CountAppend(a: seq<Member>, b: seq<Member>, p: Member -> bool)
    ensures Count(a + b, p) == Count(a, p) + Count(b, p)
    decreases |b|
  {
    if b == [] {
      assert a + b == a;
    } else {
      CountAppend(a, b[..|b| - 1], p);
      assert (a + b)[..|a + b| - 1] == a + b[..|b| - 1];
    }
  }

  // Sums the pages' counts, up to the page cap: the same for any way of cutting
  // the same rows into pages.
  method CountPages(pages: seq<seq<Member>>, p: Member -> bool) returns (total: nat)
    ensures total == Count(Flat(if |pages| <= MAX_PAGES then pages else pages[..MAX_PAGES]), p)
  {
    total := 0;
    var n := 0;
    while n < MAX_PAGES
      invariant n <= MAX_PAGES && n <= |pages|
      invariant total == Count(Flat(pages[..n]), p)
    {
      if n >= |pages| { break; }
      assert pages[..n + 1][..n] == pages[..n];
      CountAppend(Flat(pages[..n]), pages[n], p);
      total := total + Count(pages[n], p);
      n := n + 1;
    }
    assert n == |pages| ==> pages[..n] == pages;
  }

  lemma {:induction false} CountIsSize(rows: seq<Member>, p: Member -> bool)
    requires forall i, j :: 0 <= i < j < |rows| ==> rows[i] != rows[j]
    ensures Count(rows, p) == |set x | x in rows && p(x)|
    decreases |rows|
  {
    if rows != [] {
      var n := |rows| - 1;
      var before := rows[..n];
      CountIsSize(before, p);
      assert rows == before + [rows[n]];
      var some := set x | x in before && p(x);
      assert (set x | x in rows && p(x)) == if p(rows[n]) then some + {rows[n]} else some;
    }
  }

  // Three counts over the index give the rank and the total.
  method RankByPages(pages: seq<seq<Member>>, m: Member) returns (rank: nat, total: nat)
    requires |pages| <= MAX_PAGES
    requires forall i, j :: 0 <= i < j < |Flat(pages)| ==> Flat(pages)[i] != Flat(pages)[j]
    ensures rank == RankByCount(SetOf(Flat(pages)), m)
    ensures total == |SetOf(Flat(pages))|
  {
    hide Flat, Less;
    ghost var board := SetOf(Flat(pages));
    var beats := (x: Member) => x.score > m.score;
    var tiesBefore := (x: Member) => x.score == m.score && Less(x.id, m.id);
    var any := (x: Member) => true;
    var better := CountPages(pages, beats);
    CountIsSize(Flat(pages), beats);
    assert (set x | x in Flat(pages) && beats(x)) == Better(board, m);
    var tiedBefore := CountPages(pages, tiesBefore);
    CountIsSize(Flat(pages), tiesBefore);
    assert (set x | x in Flat(pages) && tiesBefore(x)) == TiedBefore(board, m);
    total := CountPages(pages, any);
    CountIsSize(Flat(pages), any);
    assert (set x | x in Flat(pages) && any(x)) == board;
    rank := better + tiedBefore + 1;
  }
}
