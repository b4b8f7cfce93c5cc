// The entry-fee part of the buy-in service over its mutable stores. Each
// method's contract says which steps of the machine it took.
module EntryFeeService {
  import opened Sums
  import opened Replies
  import opened EntryFee

  class EntitlementStore {
    var ents: map<Slot, Ent>
    ghost var log: seq<Event>

    method ClaimRow(e: Ent, ghost readAt: Time, now: Time, reply: Reply) returns (result: ClaimResult)
      modifies this
      ensures result == (if reply == Refused then ClaimError
                         else if e.slot in old(ents) && old(ents)[e.slot].expires > now then AlreadyClaimed
                         else if reply == Landed then Fresh else ClaimError)
      ensures if reply.Applied() && !(e.slot in old(ents) && old(ents)[e.slot].expires > now)
        then ents == old(ents)[e.slot := e] && log == old(log) + [Claimed(e.slot, readAt, now)]
        else ents == old(ents) && log == old(log)
    {
      if reply == Refused { return ClaimError; }
      if e.slot in ents && ents[e.slot].expires > now { return AlreadyClaimed; }
      ents := ents[e.slot := e];
      log := log + [Claimed(e.slot, readAt, now)];
      result := if reply == Landed then Fresh else ClaimError;
    }

    method RebindRow(slot: Slot, expected: RoomId, to: RoomId, now: Time, reply: Reply) returns (result: RebindResult)
      modifies this
      ensures var wins := slot in old(ents) && old(ents)[slot].expires > now && old(ents)[slot].bound == expected;
        && result == (if reply == Refused then RebindError else if !wins then NotFound
                      else if reply == Landed then Rebound else RebindError)
        && if reply.Applied() && wins
           then ents == old(ents)[slot := old(ents)[slot].(bound := to)] && log == old(log) + [Moved(slot, expected, to)]
           else ents == old(ents) && log == old(log)
    {
      if reply == Refused { return RebindError; }
      if slot !in ents || ents[slot].expires <= now || ents[slot].bound != expected { return NotFound; }
      ents := ents[slot := ents[slot].(bound := to)];
      log := log + [Moved(slot, expected, to)];
      result := if reply == Landed then Rebound else RebindError;
    }

    // Filters one query page by expiry, in the page's order.
    method ActiveFor(player: PlayerId, page: seq<RoomId>, now: Time, ghost s: Shared) returns (out: seq<Ent>)
      requires s.ents == ents && s.now == now
      ensures out == Active(s, player, page)
    {
      out := [];
      for i := 0 to |page|
        invariant out == Active(s, player, page[..i])
      {
        assert page[..i + 1][..i] == page[..i];
        var slot := Slot(player, page[i]);
        if slot in ents && ents[slot].expires > now {
          out := out + [ents[slot]];
        }
      }
      assert page[..|page|] == page;
    }
  }

  datatype ClaimResult = Fresh | AlreadyClaimed | ClaimError
  datatype RebindResult = Rebound | NotFound | RebindError

  method FindMatch(ents: seq<Ent>, tier: nat, room: RoomId) returns (r: Option<Ent>)
    ensures r == FirstMatch(ents, tier, room)
  {
    assert ents[0..] == ents;
    for i := 0 to |ents|
      invariant FirstMatch(ents, tier, room) == FirstMatch(ents[i..], tier, room)
    {
      assert ents[i..][1..] == ents[i + 1..];
      if ents[i].tier == tier && ents[i].bound == room { return Some(ents[i]); }
    }
    r := None;
  }

  method FindAt(ents: seq<Ent>, origin: RoomId) returns (r: Option<Ent>)
    ensures r == FirstAt(ents, origin)
  {
    assert ents[0..] == ents;
    for i := 0 to |ents|
      invariant FirstAt(ents, origin) == FirstAt(ents[i..], origin)
    {
      assert ents[i..][1..] == ents[i + 1..];
      if ents[i].slot.origin == origin { return Some(ents[i]); }
    }
    r := None;
  }

  class Money {
    var rows: map<FeeKey, FeeRow>
    var ledger: map<FeeKey, nat>
  }

  class Service {
    const rooms: map<RoomId, Room>
    const store: EntitlementStore
    const money: Money
    var now: Time

    constructor (rooms: map<RoomId, Room>, store: EntitlementStore, money: Money, now: Time)
      ensures this.rooms == rooms && this.store == store && this.money == money && this.now == now
    {
      this.rooms, this.store, this.money, this.now := rooms, store, money, now;
    }

    ghost function State(): Shared
      reads this, store, money
    {
      Shared(rooms, store.ents, money.rows, money.ledger, now, store.log)
    }

    method RecordFeeRow(e: Ent, reply: Reply)
      modifies money
      ensures money.ledger == old(money.ledger)
      ensures State() == if reply.Applied() then RecordFee(old(State()), e) else old(State())
    {
      if reply != Refused && KeyOf(e) !in money.rows {
        money.rows := money.rows[KeyOf(e) := FeeRow(e.fee, false, true, 0)];
      }
    }

    method DebitReal(e: Ent, reply: Reply)
      modifies money
      ensures State() == if reply.Applied() then Charge(old(State()), KeyOf(e), e.fee) else old(State())
    {
      if reply != Refused && KeyOf(e) !in money.ledger {
        money.ledger := money.ledger[KeyOf(e) := e.fee];
      }
    }

    method MarkResolved(e: Ent, reply: Reply)
      modifies money
      ensures money.ledger == old(money.ledger)
      ensures State() == if reply.Applied() then ResolveFee(old(State()), KeyOf(e)) else old(State())
    {
      var k := KeyOf(e);
      if reply != Refused && k in money.rows {
        money.rows := money.rows[k := money.rows[k].(resolved := true, open := false)];
      }
    }

    method Wait(d: nat)
      modifies this`now
      ensures State() == Tick(old(State()), d)
    {
      now := now + d;
    }

    // Record, charge, resolve. Only a failed resolve is not fatal: the charge
    // is done, and the row is settled by whoever comes next.
    method PayEntryFee(room: RoomId, player: PlayerId, e: Ent, ghost readAt: Time, env: nat -> Env, i: nat)
      returns (ok: bool, j: nat)
      requires room in rooms
      modifies this`now, money
      ensures i <= j
      ensures (State(), if ok then Admitted(e, readAt) else Failed) == Solo(old(State()), room, player, Record(e, readAt), env, i, j)
      ensures ok ==> KeyOf(e) in money.ledger
    {
      hide Solo, OnLoad, OnScan, OnRebinding, OnClaiming, OnReload, OnConfirm;
      ghost var s := State();
      ghost var pc := Record(e, readAt);
      SoloNothing(s, room, player, pc, env, i);
      Wait(env(i).tick);
      RecordFeeRow(e, env(i).reply);
      SoloNext(s, room, player, pc, env, i, i);
      if env(i).reply != Landed { return false, i + 1; }
      assert Solo(s, room, player, pc, env, i, i + 1) == (State(), Charging(e, readAt));
      Wait(env(i + 1).tick);
      DebitReal(e, env(i + 1).reply);
      SoloNext(s, room, player, pc, env, i, i + 1);
      if env(i + 1).reply != Landed { return false, i + 2; }
      assert Solo(s, room, player, pc, env, i, i + 2) == (State(), Resolve(e, readAt));
      Wait(env(i + 2).tick);
      MarkResolved(e, env(i + 2).reply);
      SoloNext(s, room, player, pc, env, i, i + 2);
      ok, j := true, i + 3;
    }

    // Coverage is the fee's own recovery row, never the reservation row: only a
    // resolved one means paid, anything else completes the same charge.
    method ConfirmFeeCharged(room: RoomId, player: PlayerId, e: Ent, ghost readAt: Time, env: nat -> Env, i: nat)
      returns (ok: bool, j: nat)
      requires room in rooms
      modifies this`now, money
      ensures i <= j
      ensures (State(), if ok then Admitted(e, readAt) else Failed) == Solo(old(State()), room, player, Confirm(e, readAt), env, i, j)
    {
      ghost var s := State();
      now := now + env(i).tick;
      if e.fee == 0 { return true, i + 1; }
      if env(i).reply != Landed { return false, i + 1; }
      if KeyOf(e) in money.rows && money.rows[KeyOf(e)].resolved { return true, i + 1; }
      assert (State(), Record(e, readAt)) == Solo(s, room, player, Confirm(e, readAt), env, i, i + 1);
      ok, j := PayEntryFee(room, player, e, readAt, env, i + 1);
      SoloSplit(s, room, player, Confirm(e, readAt), env, i, i + 1, j);
    }

    // Claims before charging; whoever loses the claim confirms the winner's fee
    // instead of trusting its row.
    method ChargeEntryFee(room: RoomId, player: PlayerId, e: Ent, ghost readAt: Time, env: nat -> Env, i: nat)
      returns (ok: bool, j: nat, ghost covered: Ent, ghost coveredAt: Time)
      requires room in rooms
      modifies this`now, store, money
      ensures i <= j
      ensures (State(), if ok then Admitted(covered, coveredAt) else Failed) == Solo(old(State()), room, player, Claiming(e, readAt), env, i, j)
    {
      ghost var s, pc := State(), Claiming(e, readAt);
      covered, coveredAt := e, readAt;
      Wait(env(i).tick);
      var claim := store.ClaimRow(e, readAt, now, env(i).reply);
      SoloNext(s, room, player, pc, env, i, i);
      if claim == ClaimError { return false, i + 1, e, readAt; }
      if claim == Fresh {
        assert Solo(s, room, player, pc, env, i, i + 1) == (State(), Record(e, readAt));
        ok, j := PayEntryFee(room, player, e, readAt, env, i + 1);
        SoloSplit(s, room, player, pc, env, i, i + 1, j);
        return;
      }
      assert Solo(s, room, player, pc, env, i, i + 1) == (State(), Reload);
      ok, j, covered, coveredAt := ConfirmWinner(room, player, e, env, i + 1);
      SoloSplit(s, room, player, pc, env, i, i + 1, j);
    }

    // Re-reads the reservation that won the claim: its expiry keys the charge.
    method ConfirmWinner(room: RoomId, player: PlayerId, ghost e: Ent, env: nat -> Env, i: nat)
      returns (ok: bool, j: nat, ghost covered: Ent, ghost coveredAt: Time)
      requires room in rooms
      modifies this`now, money
      ensures i <= j
      ensures (State(), if ok then Admitted(covered, coveredAt) else Failed) == Solo(old(State()), room, player, Reload, env, i, j)
    {
      ghost var s := State();
      covered, coveredAt := e, now;
      Wait(env(i).tick);
      SoloNext(s, room, player, Reload, env, i, i);
      if env(i).reply != Landed { return false, i + 1, covered, coveredAt; }
      var ents := store.ActiveFor(player, env(i).page, now, State());
      var winner := FindAt(ents, room);
      if winner.None? { return false, i + 1, covered, coveredAt; }
      covered, coveredAt := winner.value, now;
      assert Solo(s, room, player, Reload, env, i, i + 1) == (State(), Confirm(covered, coveredAt));
      ok, j := ConfirmFeeCharged(room, player, winner.value, coveredAt, env, i + 1);
      SoloSplit(s, room, player, Reload, env, i, i + 1, j);
    }

    // One rebind candidate: skipped, lost to somebody else, or moved here.
    method TryCandidate(room: RoomId, player: PlayerId, e: Ent, ghost rest: seq<Ent>, ghost readAt: Time, env: nat -> Env, i: nat)
      returns (result: RebindResult, j: nat)
      requires room in rooms
      modifies this`now, store
      ensures i < j
      ensures (State(), if result == NotFound then Scan(rest, readAt) else if result == Rebound then Confirm(e, readAt) else Failed)
        == Solo(old(State()), room, player, Scan([e] + rest, readAt), env, i, j)
    {
      ghost var s, pc := State(), Scan([e] + rest, readAt);
      assert ([e] + rest)[1..] == rest;
      Wait(env(i).tick);
      SoloNext(s, room, player, pc, env, i, i);
      if e.tier != rooms[room].tier || e.bound == room || env(i).bound != Gone { return NotFound, i + 1; }
      assert Solo(s, room, player, pc, env, i, i + 1) == (State(), Rebinding(e, rest, readAt));
      Wait(env(i + 1).tick);
      result := store.RebindRow(e.slot, e.bound, room, now, env(i + 1).reply);
      SoloNext(s, room, player, pc, env, i, i + 1);
      j := i + 2;
    }

    // The rebind candidates in order, then a fresh charge.
    method RebindOrCharge(room: RoomId, player: PlayerId, ents: seq<Ent>, ghost readAt: Time, env: nat -> Env, i: nat)
      returns (ok: bool, j: nat, ghost covered: Ent, ghost coveredAt: Time)
      requires room in rooms
      modifies this`now, store, money
      ensures i <= j
      ensures (State(), if ok then Admitted(covered, coveredAt) else Failed) == Solo(old(State()), room, player, Scan(ents, readAt), env, i, j)
    {
      hide AdvanceBuyIn;
      ghost var s, pc := State(), Scan(ents, readAt);
      ghost var m;
      j := i;
      assert ents[0..] == ents;
      for n := 0 to |ents|
        invariant i <= j
        invariant (State(), Scan(ents[n..], readAt)) == Solo(s, room, player, pc, env, i, j)
      {
        var e := ents[n];
        m := j;
        assert ents[n..] == [e] + ents[n + 1..];
        var result;
        result, j := TryCandidate(room, player, e, ents[n + 1..], readAt, env, j);
        SoloSplit(s, room, player, pc, env, i, m, j);
        if result == RebindError { return false, j, e, readAt; }
        if result == Rebound {
          m := j;
          ok, j := ConfirmFeeCharged(room, player, e, readAt, env, j);
          SoloSplit(s, room, player, pc, env, i, m, j);
          return ok, j, e, readAt;
        }
      }
      assert ents[|ents|..] == [];
      m := j;
      ok, j, covered, coveredAt := ChargeFresh(room, player, readAt, env, j);
      SoloSplit(s, room, player, pc, env, i, m, j);
    }

    method ChargeFresh(room: RoomId, player: PlayerId, ghost readAt: Time, env: nat -> Env, i: nat)
      returns (ok: bool, j: nat, ghost covered: Ent, ghost coveredAt: Time)
      requires room in rooms
      modifies this`now, store, money
      ensures i <= j
      ensures (State(), if ok then Admitted(covered, coveredAt) else Failed) == Solo(old(State()), room, player, Scan([], readAt), env, i, j)
    {
      ghost var s, pc := State(), Scan([], readAt);
      Wait(env(i).tick);
      SoloNext(s, room, player, pc, env, i, i);
      var claim := Ent(Slot(player, room), room, rooms[room].tier, rooms[room].fee, now + WINDOW);
      assert Solo(s, room, player, pc, env, i, i + 1) == (State(), Claiming(claim, now));
      ok, j, covered, coveredAt := ChargeEntryFee(room, player, claim, now, env, i + 1);
      SoloSplit(s, room, player, pc, env, i, i + 1, j);
    }

    // The reservation that lets a player into a room: one bound to it, one that
    // can be rebound to it, or a fresh one.
    method ResolveEntitlement(room: RoomId, player: PlayerId, env: nat -> Env)
      returns (ok: bool, j: nat, ghost covered: Ent, ghost coveredAt: Time)
      requires room in rooms
      modifies this`now, store, money
      ensures (State(), if ok then Admitted(covered, coveredAt) else Failed) == Solo(old(State()), room, player, Load, env, 0, j)
    {
      ghost var s := State();
      covered, coveredAt := Ent(Slot(player, room), room, 0, 0, 0), 0;
      Wait(env(0).tick);
      SoloNext(s, room, player, Load, env, 0, 0);
      if env(0).reply != Landed { return false, 1, covered, coveredAt; }
      var ents := store.ActiveFor(player, env(0).page, now, State());
      ghost var readAt := now;
      var exact := FindMatch(ents, rooms[room].tier, room);
      if exact.Some? {
        assert Solo(s, room, player, Load, env, 0, 1) == (State(), Confirm(exact.value, readAt));
        ok, j := ConfirmFeeCharged(room, player, exact.value, readAt, env, 1);
        covered, coveredAt := exact.value, readAt;
      } else {
        assert Solo(s, room, player, Load, env, 0, 1) == (State(), Scan(ents, readAt));
        ok, j, covered, coveredAt := RebindOrCharge(room, player, ents, readAt, env, 1);
      }
      SoloSplit(s, room, player, Load, env, 0, 1, j);
    }
  }

  lemma SoloNothing(s: Shared, room: RoomId, player: PlayerId, pc: Pc, env: nat -> Env, i: nat)
    requires room in s.rooms
    ensures Solo(s, room, player, pc, env, i, i) == (s, pc)
  {
  }
}
