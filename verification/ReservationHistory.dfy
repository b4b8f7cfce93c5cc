// What the store's claims and rebinds add up to over a run: windows that never
// overlap, a bound on the fees one table can charge, and rebinds that form a
// chain.
module ReservationHistory {
  import opened Sums
  import opened Replies
  import opened EntryFee

  // ---------- History read off the log ----------

  ghost predicate ClaimAt(e: Event, x: Slot) { e.Claimed? && e.slot == x }
  ghost predicate MoveAt(e: Event, x: Slot) { e.Moved? && e.slot == x }

  function End(e: Event): Time
    requires e.Claimed?
  {
    e.readAt + WINDOW
  }

  // Where the log leaves a slot's reservation bound.
  function BoundIn(log: seq<Event>, x: Slot): RoomId
    decreases |log|
  {
    if log == [] then x.origin
    else
      var e := log[|log| - 1];
      if e.slot != x then BoundIn(log[..|log| - 1], x)
      else if e.Claimed? then x.origin else e.to
  }

  // ---------- Invariants ----------

  ghost predicate ClaimCurrent(s: Shared, i: nat)
    requires i < |s.log| && s.log[i].Claimed?
  {
    var x := s.log[i].slot;
    End(s.log[i]) <= s.now ||
    (x in s.ents && s.ents[x].expires == End(s.log[i]) && forall j :: i < j < |s.log| ==> !ClaimAt(s.log[j], x))
  }

  ghost predicate ClaimsOk(s: Shared) {
    && (forall i :: 0 <= i < |s.log| && s.log[i].Claimed? ==> s.log[i].readAt <= s.log[i].at <= s.now && ClaimCurrent(s, i))
    && Spaced(s.log)
  }

  // A slot is claimed again only once its previous window has run out.
  ghost predicate Spaced(log: seq<Event>) {
    forall i, j :: 0 <= i < j < |log| && log[i].Claimed? && log[j].Claimed? && log[i].slot == log[j].slot ==>
      End(log[i]) <= log[j].at
  }

  ghost predicate MovesOk(s: Shared) {
    && (forall x :: x in s.ents ==> s.ents[x].bound == BoundIn(s.log, x))
    && (forall j :: 0 <= j < |s.log| && s.log[j].Moved? ==> s.log[j].from == BoundIn(s.log[..j], s.log[j].slot))
  }

  ghost predicate ClaimingOk(s: Shared, th: Thread) {
    th.BuyIn? && th.pc.Claiming? ==>
      var e := th.pc.e;
      e.expires == th.pc.readAt + WINDOW && th.pc.readAt <= s.now && e.bound == e.slot.origin
  }

  ghost predicate Hist(w: World) {
    ClaimsOk(w.shared) && MovesOk(w.shared) && forall t :: t in w.threads ==> ClaimingOk(w.shared, w.threads[t])
  }

  lemma ClaimKeeps(s: Shared, e: Ent, readAt: Time)
    requires ClaimsOk(s) && MovesOk(s) && CanClaim(s, e.slot)
    requires e.expires == readAt + WINDOW && readAt <= s.now && e.bound == e.slot.origin
    ensures ClaimsOk(Claim(s, e, readAt)) && MovesOk(Claim(s, e, readAt))
  {
    var s' := Claim(s, e, readAt);
    var n := |s.log|;
    assert s'.log[..n] == s.log;
    forall i | 0 <= i < |s'.log| && s'.log[i].Claimed? ensures s'.log[i].readAt <= s'.log[i].at <= s'.now && ClaimCurrent(s', i) {
      if i < n { assert s'.log[i] == s.log[i] && ClaimCurrent(s, i); }
    }
    forall i, j | 0 <= i < j < |s'.log| && s'.log[i].Claimed? && s'.log[j].Claimed? && s'.log[i].slot == s'.log[j].slot
      ensures End(s'.log[i]) <= s'.log[j].at
    {
      assert s'.log[i] == s.log[i] && ClaimCurrent(s, i);
    }
    forall j | 0 <= j < |s'.log| && s'.log[j].Moved? ensures s'.log[j].from == BoundIn(s'.log[..j], s'.log[j].slot) {
      assert j < n && s'.log[j] == s.log[j] && s'.log[..j] == s.log[..j];
    }
  }

  lemma RebindKeeps(s: Shared, x: Slot, expected: RoomId, to: RoomId)
    requires ClaimsOk(s) && MovesOk(s) && CanRebind(s, x, expected)
    ensures ClaimsOk(Rebind(s, x, expected, to)) && MovesOk(Rebind(s, x, expected, to))
  {
    var s' := Rebind(s, x, expected, to);
    var n := |s.log|;
    assert s'.log[..n] == s.log;
    forall i | 0 <= i < |s'.log| && s'.log[i].Claimed? ensures s'.log[i].readAt <= s'.log[i].at <= s'.now && ClaimCurrent(s', i) {
      assert i < n && s'.log[i] == s.log[i] && ClaimCurrent(s, i);
    }
    forall j | 0 <= j < |s'.log| && s'.log[j].Moved? ensures s'.log[j].from == BoundIn(s'.log[..j], s'.log[j].slot) {
      if j < n { assert s'.log[j] == s.log[j] && s'.log[..j] == s.log[..j]; }
    }
  }

  // Time passing, fee rows and charges leave the history alone; reaping drops
  // only rows that expired long ago.
  lemma QuietKeeps(s: Shared, s': Shared)
    requires ClaimsOk(s) && MovesOk(s) && s'.log == s.log && s'.now >= s.now
    requires forall x :: x in s'.ents ==> x in s.ents && s'.ents[x] == s.ents[x]
    requires forall x :: x in s.ents && x !in s'.ents ==> s.ents[x].expires <= s'.now
    ensures ClaimsOk(s') && MovesOk(s')
  {
    forall i | 0 <= i < |s'.log| && s'.log[i].Claimed? ensures s'.log[i].readAt <= s'.log[i].at <= s'.now && ClaimCurrent(s', i) {
      assert ClaimCurrent(s, i);
    }
  }

  lemma AdvanceKeeps(s: Shared, th: Thread, env: Env)
    requires ClaimsOk(s) && MovesOk(s) && ClaimingOk(s, th) && (th.BuyIn? ==> th.room in s.rooms)
    ensures var (s', th') := AdvanceThread(s, th, env); ClaimsOk(s') && MovesOk(s') && ClaimingOk(s', th') && s'.now == s.now
  {
    var s' := AdvanceThread(s, th, env).0;
    if th.BuyIn? && th.pc.Claiming? && env.reply != Refused && CanClaim(s, th.pc.e.slot) {
      ClaimKeeps(s, th.pc.e, th.pc.readAt);
    } else if th.BuyIn? && th.pc.Rebinding? && env.reply != Refused && CanRebind(s, th.pc.e.slot, th.pc.e.bound) {
      RebindKeeps(s, th.pc.e.slot, th.pc.e.bound, th.room);
    } else {
      QuietKeeps(s, s');
    }
  }

  lemma StepKeepsHist(w: World, a: Action)
    requires Hist(w)
    ensures Hist(Step(w, a))
  {
    if a.Advance? && a.t in w.threads && (w.threads[a.t].BuyIn? ==> w.threads[a.t].room in w.shared.rooms) {
      var s := Tick(w.shared, a.env.tick);
      QuietKeeps(w.shared, s);
      AdvanceKeeps(s, w.threads[a.t], a.env);
    } else {
      QuietKeeps(w.shared, Step(w, a).shared);
    }
  }

  lemma {:induction false} RunKeepsHist(w: World, actions: seq<Action>)
    requires Hist(w)
    ensures Hist(Run(w, actions))
    decreases |actions|
  {
    if actions != [] {
      RunKeepsHist(w, actions[..|actions| - 1]);
      StepKeepsHist(Run(w, actions[..|actions| - 1]), actions[|actions| - 1]);
    }
  }

  ghost predicate Fresh(w: World) { w.threads == map[] && w.shared.ents == map[] && w.shared.log == [] }

  // ---------- Windows ----------

  // Every claim wrote with the same clock reading it computed its expiry from.
  ghost predicate Prompt(log: seq<Event>) {
    forall i :: 0 <= i < |log| && log[i].Claimed? ==> log[i].readAt == log[i].at
  }

  // The reservation windows of one player at one table are pairwise disjoint.
  lemma WindowsDisjoint(w: World, actions: seq<Action>, i: nat, j: nat, t: Time)
    requires Fresh(w)
    requires var log := Run(w, actions).shared.log;
      Prompt(log) && i < j < |log| && log[i].Claimed? && log[j].Claimed? && log[i].slot == log[j].slot
    ensures var log := Run(w, actions).shared.log;
      !(log[i].at <= t < log[i].at + WINDOW && log[j].at <= t < log[j].at + WINDOW)
  {
    RunKeepsHist(w, actions);
  }

  // How many claims a slot saw between two times, and the last one that did.
  function Claims(log: seq<Event>, x: Slot, from: Time, to: Time): nat
    decreases |log|
  {
    if log == [] then 0
    else
      var e := log[|log| - 1];
      Claims(log[..|log| - 1], x, from, to) + if e.Claimed? && e.slot == x && from <= e.at <= to then 1 else 0
  }

  lemma {:induction false} ClaimsSpread(log: seq<Event>, x: Slot, from: Time, to: Time) returns (last: nat)
    requires Spaced(log) && Prompt(log) && Claims(log, x, from, to) > 0
    ensures last < |log| && ClaimAt(log[last], x) && log[last].at <= to
    ensures log[last].at >= from + (Claims(log, x, from, to) - 1) * WINDOW
    decreases |log|
  {
    var n := |log| - 1;
    var e := log[n];
    var before := log[..n];
    if !(e.Claimed? && e.slot == x && from <= e.at <= to) {
      last := ClaimsSpread(before, x, from, to);
    } else {
      last := n;
      if Claims(before, x, from, to) > 0 {
        var prev := ClaimsSpread(before, x, from, to);
        assert End(log[prev]) <= log[n].at;
      }
    }
  }

  lemma WholeWindows(k: nat, d: nat)
    requires k * WINDOW <= d
    ensures k <= d / WINDOW
  {
    assert WINDOW == 10800;
  }

  // A span of length d creates at most d / Window + 1 fee keys at one slot.
  lemma FeesBounded(w: World, actions: seq<Action>, x: Slot, from: Time, d: nat)
    requires Fresh(w) && Prompt(Run(w, actions).shared.log)
    ensures Claims(Run(w, actions).shared.log, x, from, from + d) <= d / WINDOW + 1
  {
    RunKeepsHist(w, actions);
    var log := Run(w, actions).shared.log;
    var n := Claims(log, x, from, from + d);
    if n > 0 {
      var last := ClaimsSpread(log, x, from, from + d);
      WholeWindows(n - 1, d);
    }
  }

  // ---------- Rebinds ----------

  ghost predicate Untouched(log: seq<Event>, x: Slot, i: nat, j: nat)
    requires i <= j <= |log|
  {
    forall m :: i <= m < j ==> log[m].slot != x
  }

  lemma {:induction false} BoundUntouched(log: seq<Event>, x: Slot, i: nat, j: nat)
    requires i <= j <= |log| && Untouched(log, x, i, j)
    ensures BoundIn(log[..j], x) == BoundIn(log[..i], x)
    decreases j
  {
    if i < j {
      assert log[..j][..j - 1] == log[..j - 1];
      BoundUntouched(log, x, i, j - 1);
    }
  }

  // Consecutive rebinds link up: each expected exactly what the previous left.
  lemma RebindsChain(w: World, actions: seq<Action>, i: nat, j: nat, x: Slot)
    requires Fresh(w)
    requires var log := Run(w, actions).shared.log;
      i < j < |log| && MoveAt(log[i], x) && MoveAt(log[j], x) && Untouched(log, x, i + 1, j)
    ensures var log := Run(w, actions).shared.log; log[j].from == log[i].to
  {
    RunKeepsHist(w, actions);
    var log := Run(w, actions).shared.log;
    BoundUntouched(log, x, i + 1, j);
    assert log[..i + 1][..i] == log[..i];
  }

  lemma {:induction false} BoundComesFrom(log: seq<Event>, x: Slot, i: nat, j: nat) returns (m: nat)
    requires i < j <= |log| && MoveAt(log[i], x) && forall k :: i < k < j ==> !ClaimAt(log[k], x)
    ensures i <= m < j && MoveAt(log[m], x) && log[m].to == BoundIn(log[..j], x)
    decreases j
  {
    assert log[..j][..j - 1] == log[..j - 1];
    if log[j - 1].slot == x {
      m := j - 1;
    } else {
      m := BoundComesFrom(log, x, i, j - 1);
    }
  }

  // Two callers with one observation never both win within a window, unless
  // some rebind in between brought the binding back to what they saw.
  lemma SameObservationWinsOnce(w: World, actions: seq<Action>, i: nat, j: nat, x: Slot)
    requires Fresh(w)
    requires var log := Run(w, actions).shared.log;
      i < j < |log| && MoveAt(log[i], x) && MoveAt(log[j], x) && log[i].from == log[j].from &&
      forall k :: i < k < j ==> !ClaimAt(log[k], x)
    ensures var log := Run(w, actions).shared.log;
      exists m :: i <= m < j && MoveAt(log[m], x) && log[m].to == log[j].from
  {
    RunKeepsHist(w, actions);
    var log := Run(w, actions).shared.log;
    var m := BoundComesFrom(log, x, i, j);
  }
}
