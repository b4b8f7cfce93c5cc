// One fee, two tables: a reservation still admits its player at the table it was
// bought for after it has been moved to another.
module EntryFeeOrigin {
  import opened Sums
  import opened Replies
  import opened EntryFee

  ghost predicate Keyed(s: Shared) { forall slot :: slot in s.ents ==> s.ents[slot].slot == slot }

  predicate Holds(s: Shared, slot: Slot) { slot in s.ents && s.ents[slot].expires > s.now }

  lemma {:induction false} FirstAtOrigin(s: Shared, player: PlayerId, page: seq<RoomId>, room: RoomId)
    requires Keyed(s)
    ensures FirstAt(Active(s, player, page), room) ==
      if room in page && Holds(s, Slot(player, room)) then Some(s.ents[Slot(player, room)]) else None
  {
    var found := Active(s, player, page);
    var r := FirstAt(found, room);
    if room in page && Holds(s, Slot(player, room)) {
      var i :| 0 <= i < |page| && page[i] == room;
      assert s.ents[Slot(player, page[i])] in found;
    }
  }

  // The loser of a claim is covered by the unexpired reservation bought at this
  // table, wherever it is bound by now; so it ends up covered by one bound
  // elsewhere exactly when that reservation is.
  lemma LoserIsCoveredIff(s: Shared, room: RoomId, player: PlayerId, env: Env)
    requires Keyed(s) && env.reply == Landed
    ensures var slot := Slot(player, room); var pc := OnReload(s, room, player, env);
      && (pc.Confirm? <==> room in env.page && Holds(s, slot))
      && (pc.Confirm? ==> pc == Confirm(s.ents[slot], s.now))
      && (pc.Confirm? && pc.e.bound != room <==> room in env.page && Holds(s, slot) && s.ents[slot].bound != room)
  {
    FirstAtOrigin(s, player, env.page, room);
  }

  // Everything answers, no time passes, and every other table is in one state.
  function Calm(page: seq<RoomId>, bound: Availability): Env { Env(0, Landed, page, bound) }

  ghost predicate PaidElsewhere(s: Shared, room: RoomId, player: PlayerId) {
    var slot := Slot(player, room);
    && Keyed(s) && room in s.rooms && Holds(s, slot)
    && s.ents[slot].bound != room && s.ents[slot].tier == s.rooms[room].tier
    && KeyOf(s.ents[slot]) in s.rows && s.rows[KeyOf(s.ents[slot])].resolved
  }

  // One of the player's unexpired reservations on the page is for this table already.
  predicate BoundHere(s: Shared, room: RoomId, player: PlayerId, page: seq<RoomId>)
    requires room in s.rooms
  {
    FirstMatch(Active(s, player, page), s.rooms[room].tier, room).Some?
  }

  lemma CalmStep(s: Shared, room: RoomId, player: PlayerId, pc: Pc, env: nat -> Env, i: nat, j: nat, e: Env)
    requires room in s.rooms && i <= j && e.tick == 0 && env(j) == e
    ensures var x := Solo(s, room, player, pc, env, i, j);
      Solo(s, room, player, pc, env, i, j + 1) == AdvanceBuyIn(x.0, room, player, x.1, e)
    ensures Solo(s, room, player, pc, env, i, i) == (s, pc)
  {
    hide AdvanceBuyIn;
    SoloNext(s, room, player, pc, env, i, j);
    assert Tick(Solo(s, room, player, pc, env, i, j).0, 0) == Solo(s, room, player, pc, env, i, j).0;
  }

  // ---------- The other table is not known to be gone ----------

  lemma {:induction false} ScanSkips(s: Shared, room: RoomId, player: PlayerId, rest: seq<Ent>, readAt: Time, env: nat -> Env, i: nat, page: seq<RoomId>, bound: Availability)
    requires room in s.rooms && bound != Gone && forall k :: env(k) == Calm(page, bound)
    ensures Solo(s, room, player, Scan(rest, readAt), env, i, i + |rest|) == (s, Scan([], readAt))
    decreases |rest|
  {
    hide Solo;
    CalmStep(s, room, player, Scan(rest, readAt), env, i, i, Calm(page, bound));
    if rest != [] {
      assert AdvanceBuyIn(s, room, player, Scan(rest, readAt), Calm(page, bound)) == (s, Scan(rest[1..], readAt));
      ScanSkips(s, room, player, rest[1..], readAt, env, i + 1, page, bound);
      SoloSplit(s, room, player, Scan(rest, readAt), env, i, i + 1, i + |rest|);
    }
  }

  lemma LoadScans(s: Shared, room: RoomId, player: PlayerId, page: seq<RoomId>, bound: Availability)
    requires room in s.rooms
    ensures var pc := OnLoad(s, room, player, Calm(page, bound));
      if BoundHere(s, room, player, page)
      then pc == Confirm(FirstMatch(Active(s, player, page), s.rooms[room].tier, room).value, s.now)
      else pc == Scan(Active(s, player, page), s.now)
  {
  }

  lemma ConfirmAdmits(s: Shared, e: Ent, readAt: Time, env: Env)
    requires KeyOf(e) in s.rows && s.rows[KeyOf(e)].resolved && env.reply == Landed
    ensures OnConfirm(s, e, readAt, env) == Admitted(e, readAt)
  {
  }

  // Nothing to move: the claim is lost to the player's own row, which is confirmed.
  lemma LosesClaimToOwn(s: Shared, room: RoomId, player: PlayerId, readAt: Time, env: nat -> Env, i: nat, page: seq<RoomId>, bound: Availability)
    requires PaidElsewhere(s, room, player) && room in page && forall k :: env(k) == Calm(page, bound)
    ensures Solo(s, room, player, Scan([], readAt), env, i, i + 4) == (s, Admitted(s.ents[Slot(player, room)], s.now))
  {
    hide Solo, Keyed, AdvanceBuyIn;
    var c := Calm(page, bound);
    var pc := Scan([], readAt);
    CalmStep(s, room, player, pc, env, i, i, c);
    CalmStep(s, room, player, pc, env, i, i + 1, c);
    CalmStep(s, room, player, pc, env, i, i + 2, c);
    CalmStep(s, room, player, pc, env, i, i + 3, c);
    LosingSteps(s, room, player, readAt, page, bound);
  }

  lemma LosingSteps(s: Shared, room: RoomId, player: PlayerId, readAt: Time, page: seq<RoomId>, bound: Availability)
    requires PaidElsewhere(s, room, player) && room in page
    ensures var e, c := s.ents[Slot(player, room)], Calm(page, bound);
      var claim := Claiming(FreshEnt(s, room, player), s.now);
      && AdvanceBuyIn(s, room, player, Scan([], readAt), c) == (s, claim)
      && AdvanceBuyIn(s, room, player, claim, c) == (s, Reload)
      && AdvanceBuyIn(s, room, player, Reload, c) == (s, Confirm(e, s.now))
      && AdvanceBuyIn(s, room, player, Confirm(e, s.now), c) == (s, Admitted(e, s.now))
  {
    hide Keyed, OnReload, OnConfirm;
    LoserIsCoveredIff(s, room, player, Calm(page, bound));
    ConfirmAdmits(s, s.ents[Slot(player, room)], s.now, Calm(page, bound));
  }

  lemma StaysElsewhere(s: Shared, room: RoomId, player: PlayerId, env: nat -> Env, page: seq<RoomId>, bound: Availability)
    requires PaidElsewhere(s, room, player) && room in page && forall k :: env(k) == Calm(page, bound)
    requires bound != Gone && !BoundHere(s, room, player, page)
    ensures Solo(s, room, player, Load, env, 0, |Active(s, player, page)| + 5) == (s, Admitted(s.ents[Slot(player, room)], s.now))
  {
    hide Solo, Keyed, OnLoad, Active;
    var found := Active(s, player, page);
    var n := |found|;
    CalmStep(s, room, player, Load, env, 0, 0, Calm(page, bound));
    LoadScans(s, room, player, page, bound);
    ScanSkips(s, room, player, found, s.now, env, 1, page, bound);
    LosesClaimToOwn(s, room, player, s.now, env, n + 1, page, bound);
    SoloSplit(s, room, player, Load, env, 0, 1, n + 1);
    SoloSplit(s, room, player, Load, env, 0, n + 1, n + 5);
  }

  // ---------- Otherwise the fee covers one table ----------

  // The call is settled on a reservation that is bound here by now, or not on the
  // player's own old one at all.
  ghost predicate SettlesHere(s: Shared, pc: Pc, slot: Slot, room: RoomId) {
    && (pc.Confirm? || pc.Record? || pc.Charging? || pc.Resolve? || pc.Admitted?)
    && (pc.e.slot == slot ==> slot in s.ents && s.ents[slot].bound == room)
  }

  // Still looking, with the own reservation still to come and every row as read.
  ghost predicate StillLooking(s: Shared, pc: Pc, slot: Slot, room: RoomId) {
    && room in s.rooms && slot in s.ents && s.ents[slot].bound != room && s.ents[slot].tier == s.rooms[room].tier
    && match pc
       case Scan(rest, _) => s.ents[slot] in rest && forall e :: e in rest ==> Current(s, e)
       case Rebinding(e, _, _) => Current(s, e)
       case _ => false
  }

  ghost predicate Current(s: Shared, e: Ent) { e.slot in s.ents && s.ents[e.slot] == e && e.expires > s.now }

  lemma LookingStep(s: Shared, room: RoomId, player: PlayerId, pc: Pc, slot: Slot, page: seq<RoomId>)
    requires StillLooking(s, pc, slot, room) && s.ents[slot].slot == slot
    ensures var x := AdvanceBuyIn(s, room, player, pc, Calm(page, Gone));
      SettlesHere(x.0, x.1, slot, room) || (x.0 == s && StillLooking(s, x.1, slot, room))
  {
    if pc.Scan? {
      var e := pc.rest[0];
      assert Current(s, e);
      assert pc.rest == [e] + pc.rest[1..];
      assert forall f :: f in pc.rest[1..] ==> f in pc.rest;
    }
  }

  lemma SettledStep(s: Shared, room: RoomId, player: PlayerId, pc: Pc, slot: Slot, page: seq<RoomId>, bound: Availability)
    requires room in s.rooms && SettlesHere(s, pc, slot, room)
    ensures var x := AdvanceBuyIn(s, room, player, pc, Calm(page, bound));
      SettlesHere(x.0, x.1, slot, room)
  {
  }

  lemma {:induction false} StaysSettled(s: Shared, room: RoomId, player: PlayerId, pc: Pc, slot: Slot, env: nat -> Env, i: nat, j: nat, page: seq<RoomId>, bound: Availability)
    requires room in s.rooms && i <= j && SettlesHere(s, pc, slot, room) && forall k :: env(k) == Calm(page, bound)
    ensures var x := Solo(s, room, player, pc, env, i, j); SettlesHere(x.0, x.1, slot, room)
    decreases j
  {
    hide Solo, AdvanceBuyIn, SettlesHere;
    CalmStep(s, room, player, pc, env, i, if j > i then j - 1 else i, Calm(page, bound));
    if i < j {
      StaysSettled(s, room, player, pc, slot, env, i, j - 1, page, bound);
      var x := Solo(s, room, player, pc, env, i, j - 1);
      SettledStep(x.0, room, player, x.1, slot, page, bound);
    }
  }

  lemma {:induction false} LooksOrSettles(s: Shared, room: RoomId, player: PlayerId, pc: Pc, slot: Slot, env: nat -> Env, i: nat, j: nat, page: seq<RoomId>)
    requires i <= j && StillLooking(s, pc, slot, room) && s.ents[slot].slot == slot && forall k :: env(k) == Calm(page, Gone)
    ensures var x := Solo(s, room, player, pc, env, i, j);
      SettlesHere(x.0, x.1, slot, room) || (x.0 == s && StillLooking(s, x.1, slot, room))
    decreases j
  {
    hide Solo, AdvanceBuyIn, SettlesHere;
    CalmStep(s, room, player, pc, env, i, if j > i then j - 1 else i, Calm(page, Gone));
    if i < j {
      LooksOrSettles(s, room, player, pc, slot, env, i, j - 1, page);
      var x := Solo(s, room, player, pc, env, i, j - 1);
      if SettlesHere(x.0, x.1, slot, room) {
        SettledStep(x.0, room, player, x.1, slot, page, Gone);
      } else {
        LookingStep(s, room, player, x.1, slot, page);
      }
    }
  }

  // What the first read leads to in these two cases.
  lemma FirstReading(s: Shared, room: RoomId, player: PlayerId, page: seq<RoomId>, bound: Availability)
    requires PaidElsewhere(s, room, player) && room in page && (BoundHere(s, room, player, page) || bound == Gone)
    ensures var pc := OnLoad(s, room, player, Calm(page, bound)); var slot := Slot(player, room);
      SettlesHere(s, pc, slot, room) || (bound == Gone && StillLooking(s, pc, slot, room))
  {
    var slot, found := Slot(player, room), Active(s, player, page);
    LoadScans(s, room, player, page, bound);
    FirstAtOrigin(s, player, page, room);
    forall e | e in found ensures Current(s, e) {
      var i :| 0 <= i < |page| && Slot(player, page[i]) in s.ents && e == s.ents[Slot(player, page[i])] && e.expires > s.now;
    }
  }

  lemma CoversHereOnly(s: Shared, room: RoomId, player: PlayerId, env: nat -> Env, page: seq<RoomId>, bound: Availability, j: nat)
    requires PaidElsewhere(s, room, player) && room in page && forall k :: env(k) == Calm(page, bound)
    requires BoundHere(s, room, player, page) || bound == Gone
    ensures var slot := Slot(player, room); var (s', pc) := Solo(s, room, player, Load, env, 0, j);
      pc.Admitted? && pc.e.slot == slot ==> slot in s'.ents && s'.ents[slot].bound == room
  {
    hide Solo, AdvanceBuyIn, OnLoad;
    var slot := Slot(player, room);
    CalmStep(s, room, player, Load, env, 0, 0, Calm(page, bound));
    if j > 0 {
      SoloSplit(s, room, player, Load, env, 0, 1, j);
      LoadStep(s, room, player, Calm(page, bound));
      FirstReading(s, room, player, page, bound);
      var pc := OnLoad(s, room, player, Calm(page, bound));
      assert s.ents[slot].slot == slot;
      if SettlesHere(s, pc, slot, room) {
        StaysSettled(s, room, player, pc, slot, env, 1, j, page, bound);
      } else {
        LooksOrSettles(s, room, player, pc, slot, env, 1, j, page);
      }
    }
  }

  lemma LoadStep(s: Shared, room: RoomId, player: PlayerId, env: Env)
    requires room in s.rooms
    ensures AdvanceBuyIn(s, room, player, Load, env) == (s, OnLoad(s, room, player, env))
  {
  }

  // A player whose reservation for this table was paid for and moved elsewhere comes
  // back, with any page of reservations that lists it. Undisturbed, the call admits
  // them on that one paid fee while it stays bound to the other table, so that the
  // fee covers two tables, if and only if none of their reservations is for this
  // table already and the other tables are not known to be gone; and then it writes
  // nothing at all.
  lemma OneFeeTwoTablesIff(s: Shared, room: RoomId, player: PlayerId, env: nat -> Env, page: seq<RoomId>, bound: Availability)
    requires PaidElsewhere(s, room, player) && room in page && forall k :: env(k) == Calm(page, bound)
    ensures var slot, n := Slot(player, room), |Active(s, player, page)| + 5;
      var (s', pc) := Solo(s, room, player, Load, env, 0, n);
      var twice := pc.Admitted? && pc.e.slot == slot && slot in s'.ents && s'.ents[slot].bound != room;
      && (twice <==> !BoundHere(s, room, player, page) && bound != Gone)
      && (twice ==> s' == s && pc == Admitted(s.ents[slot], s.now))
  {
    hide Solo, Active;
    if BoundHere(s, room, player, page) || bound == Gone {
      CoversHereOnly(s, room, player, env, page, bound, |Active(s, player, page)| + 5);
    } else {
      StaysElsewhere(s, room, player, env, page, bound);
    }
  }

  // ---------- How it comes about ----------

  // Two tables of one tier with one fee, a player, and nothing stored yet.
  function Opening(a: RoomId, b: RoomId, room: Room, now: Time): World {
    World(Shared(map[a := room, b := room], map[], map[], map[], now, []), map[])
  }

  // The player buys in at a, leaves, and buys in at b once a is gone.
  function Bought(a: RoomId, room: Room, player: PlayerId, now: Time): Ent {
    Ent(Slot(player, a), a, room.tier, room.fee, now + WINDOW)
  }

  lemma PaysAtFirst(a: RoomId, b: RoomId, room: Room, player: PlayerId, now: Time, env: nat -> Env)
    requires a != b && room.fee > 0 && forall k :: env(k) == Calm([], Taken)
    ensures var s := Opening(a, b, room, now).shared; var e := Bought(a, room, player, now);
      Solo(s, a, player, Load, env, 0, 6) ==
        (Shared(s.rooms, map[e.slot := e], map[KeyOf(e) := FeeRow(e.fee, true, false, 0)], map[KeyOf(e) := e.fee], now, [Claimed(e.slot, now, now)]),
         Admitted(e, now))
  {
    hide Solo;
    var s, e, c := Opening(a, b, room, now).shared, Bought(a, room, player, now), Calm([], Taken);
    CalmStep(s, a, player, Load, env, 0, 0, c);
    CalmStep(s, a, player, Load, env, 0, 1, c);
    CalmStep(s, a, player, Load, env, 0, 2, c);
    CalmStep(s, a, player, Load, env, 0, 3, c);
    CalmStep(s, a, player, Load, env, 0, 4, c);
    CalmStep(s, a, player, Load, env, 0, 5, c);
    assert AdvanceBuyIn(s, a, player, Load, c) == (s, Scan([], now));
    assert AdvanceBuyIn(s, a, player, Scan([], now), c) == (s, Claiming(e, now));
    var s1 := Claim(s, e, now);
    assert AdvanceBuyIn(s, a, player, Claiming(e, now), c) == (s1, Record(e, now));
    var s2 := RecordFee(s1, e);
    assert AdvanceBuyIn(s1, a, player, Record(e, now), c) == (s2, Charging(e, now));
    var s3 := Charge(s2, KeyOf(e), e.fee);
    assert AdvanceBuyIn(s2, a, player, Charging(e, now), c) == (s3, Resolve(e, now));
    var k := KeyOf(e);
    assert s3.rows == map[k := FeeRow(e.fee, false, true, 0)];
    var s4 := ResolveFee(s3, k);
    assert s4.rows == map[k := FeeRow(e.fee, true, false, 0)];
    assert s4 == Shared(s.rooms, map[e.slot := e], s4.rows, map[k := e.fee], now, [Claimed(e.slot, now, now)]);
  }

  lemma MovesOn(s: Shared, a: RoomId, b: RoomId, player: PlayerId, env: nat -> Env)
    requires a != b && b in s.rooms && Holds(s, Slot(player, a)) && s.ents[Slot(player, a)].slot == Slot(player, a)
    requires s.ents[Slot(player, a)].bound == a && s.ents[Slot(player, a)].tier == s.rooms[b].tier
    requires forall k :: env(k) == Calm([a], Gone)
    ensures Solo(s, b, player, Load, env, 0, 3) == (Rebind(s, Slot(player, a), a, b), Confirm(s.ents[Slot(player, a)], s.now))
  {
    hide Solo, Active;
    var e, c := s.ents[Slot(player, a)], Calm([a], Gone);
    OnlyOneActive(s, player, a);
    CalmStep(s, b, player, Load, env, 0, 0, c);
    CalmStep(s, b, player, Load, env, 0, 1, c);
    CalmStep(s, b, player, Load, env, 0, 2, c);
    assert AdvanceBuyIn(s, b, player, Load, c) == (s, Scan([e], s.now));
    assert [e][1..] == [];
    assert AdvanceBuyIn(s, b, player, Scan([e], s.now), c) == (s, Rebinding(e, [], s.now));
  }

  lemma OnlyOneActive(s: Shared, player: PlayerId, room: RoomId)
    requires Holds(s, Slot(player, room))
    ensures Active(s, player, [room]) == [s.ents[Slot(player, room)]]
  {
    assert [room][..0] == [];
    assert Active(s, player, []) == [];
  }

  // From an empty store, for any two tables of one tier and any fee: a run after
  // which the player has paid at a and their reservation is bound to b.
  lemma MovedAfterPaying(a: RoomId, b: RoomId, room: Room, player: PlayerId, now: Time) returns (first: seq<Action>, second: seq<Action>)
    requires a != b && room.fee > 0
    ensures var w := Run(Step(Run(Step(Opening(a, b, room, now), StartBuyIn(1, a, player)), first), StartBuyIn(2, b, player)), second);
      PaidElsewhere(w.shared, a, player) && w.shared.ents[Slot(player, a)].bound == b
  {
    hide Run, Solo, AdvanceThread;
    var paying := (k: nat) => Calm([], Taken);
    var moving := (k: nat) => Calm([a], Gone);
    first, second := Advances(1, paying, 0, 6), Advances(2, moving, 0, 3);
    var w1 := Step(Opening(a, b, room, now), StartBuyIn(1, a, player));
    SoloIsRun(w1, 1, paying, 0, 6);
    PaysAtFirst(a, b, room, player, now, paying);
    var w2 := Run(w1, first);
    OneThread(w1, paying);
    var w3 := Step(w2, StartBuyIn(2, b, player));
    SoloIsRun(w3, 2, moving, 0, 3);
    MovesOn(w3.shared, a, b, player, moving);
  }

  // Advancing one call leaves the others' places free.
  lemma {:induction false} FreeStays(w: World, env: nat -> Env, j: nat)
    requires 2 !in w.threads
    ensures 2 !in Run(w, Advances(1, env, 0, j)).threads
    decreases j
  {
    hide AdvanceThread;
    if j > 0 {
      FreeStays(w, env, j - 1);
      RunLast(w, Advances(1, env, 0, j));
      assert Advances(1, env, 0, j)[..j - 1] == Advances(1, env, 0, j - 1);
    } else {
      assert Advances(1, env, 0, 0) == [];
    }
  }

  lemma OneThread(w: World, env: nat -> Env)
    requires 2 !in w.threads
    ensures 2 !in Run(w, Advances(1, env, 0, 6)).threads
  {
    FreeStays(w, env, 6);
  }
}
