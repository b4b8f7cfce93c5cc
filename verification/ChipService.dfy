// The buy-in service and the reconcile job over their mutable stores. Each
// method runs one call to its end; its external replies are parameters, and
// its contract ties the new state to that call's run of the machine.
module ChipService {
  import opened Sums
  import opened Replies
  import opened ChipMovement
  import opened ChipConservation

  class Wallet {
    var ledger: map<Key, Entry>

    method Move(k: Key, player: PlayerId, delta: int, reply: Reply) returns (ok: bool)
      modifies this
      ensures ledger == if reply.Applied() && delta != 0 then Post(old(ledger), k, player, delta) else old(ledger)
      ensures ok <==> reply == Landed && delta != 0
    {
      if delta == 0 || reply == Refused { return false; }
      if k !in ledger {
        ledger := ledger[k := Entry(player, delta)];
      }
      ok := reply == Landed;
    }
  }

  class PendingStore {
    var rows: map<Key, Row>

    method Record(k: Key, player: PlayerId, amount: nat, reply: Reply) returns (ok: bool)
      modifies this
      ensures rows == if reply.Applied() then RecordRow(old(rows), k, player, amount) else old(rows)
      ensures ok <==> reply == Landed
    {
      if reply == Refused { return false; }
      if k !in rows {
        rows := rows[k := Row(player, amount, false, true, 0)];
      }
      ok := reply == Landed;
    }

    method MarkResolved(k: Key, reply: Reply) returns (ok: bool)
      modifies this
      ensures rows == if reply.Applied() then ResolveRow(old(rows), k) else old(rows)
      ensures ok <==> reply == Landed
    {
      if reply == Refused { return false; }
      if k in rows {
        rows := rows[k := rows[k].(resolved := true, open := false)];
      }
      ok := reply == Landed;
    }

    // Counts a failure; `quarantined` reports that this one was the last allowed.
    method RecordFailedAttempt(e: Due, reply: Reply) returns (ok: bool, quarantined: bool)
      modifies this
      ensures rows == if reply.Applied() then FailRow(old(rows), e.key, e.row) else old(rows)
      ensures ok <==> reply == Landed && e.key in old(rows)
      ensures quarantined <==> ok && e.row.attempts + 1 >= MAX_ATTEMPTS
      ensures reply.Applied() && e.key in old(rows) ==>
        && e.key in rows && rows[e.key].attempts == e.row.attempts + 1
        && (rows[e.key].open <==> old(rows)[e.key].open && e.row.attempts + 1 < 5)
        && rows[e.key].amount == old(rows)[e.key].amount && rows[e.key].resolved == old(rows)[e.key].resolved
      ensures rows.Keys == old(rows).Keys && forall j :: j in rows && j != e.key ==> rows[j] == old(rows)[j]
    {
      if reply == Refused || e.key !in rows { return false, false; }
      var attempts := e.row.attempts + 1;
      var stillOpen := rows[e.key].open && attempts < MAX_ATTEMPTS;
      rows := rows[e.key := rows[e.key].(attempts := attempts, open := stillOpen)];
      ok := reply == Landed;
      quarantined := ok && attempts >= MAX_ATTEMPTS;
    }

    // The unresolved open rows among the ids whose grace period is over.
    method ListUnresolved(due: seq<Key>) returns (entries: seq<Due>)
      ensures forall i :: 0 <= i < |entries| ==>
        entries[i].key in due && entries[i].key in rows && entries[i].row == rows[entries[i].key] &&
        entries[i].row.open && !entries[i].row.resolved
      ensures forall k :: k in due && k in rows && rows[k].open && !rows[k].resolved ==> Due(k, rows[k]) in entries
    {
      entries := [];
      for i := 0 to |due|
        invariant forall j :: 0 <= j < |entries| ==>
          entries[j].key in due && entries[j].key in rows && entries[j].row == rows[entries[j].key] &&
          entries[j].row.open && !entries[j].row.resolved
        invariant forall k :: k in due[..i] && k in rows && rows[k].open && !rows[k].resolved ==> Due(k, rows[k]) in entries
      {
        var k := due[i];
        if k in rows && rows[k].open && !rows[k].resolved {
          entries := entries + [Due(k, rows[k])];
        }
      }
      assert due[..|due|] == due;
    }
  }

  // The live tables: seats, and the buy-in keys whose join has committed.
  class Tables {
    var seats: map<Seat, nat>
    var joined: set<Key>
    var raked: nat

    method Join(k: Key, amount: nat, reply: Reply) returns (ok: bool)
      modifies this`seats, this`joined
      ensures ok <==> reply == Landed && SeatFree(old(seats), SeatOf(k))
      ensures var seated := reply.Applied() && SeatFree(old(seats), SeatOf(k));
        && seats == (if seated then old(seats)[SeatOf(k) := amount] else old(seats))
        && joined == (if seated then old(joined) + {k} else old(joined))
    {
      var seat := SeatOf(k);
      if reply == Refused || (seat in seats && seats[seat] > 0) { return false; }
      seats := seats[seat := amount];
      joined := joined + {k};
      ok := reply == Landed;
    }

    // Removes the seat and writes its settlement row in one transaction.
    method LeaveSeat(pending: PendingStore, k: Key, reply: Reply) returns (ok: bool, stack: nat)
      modifies this`seats, pending
      ensures var free := reply.Applied() && SeatOf(k) in old(seats) && k !in old(pending.rows);
        && seats == (if free then old(seats) - {SeatOf(k)} else old(seats))
        && pending.rows == (if free then old(pending.rows)[k := Row(k.player, old(seats)[SeatOf(k)], false, true, 0)] else old(pending.rows))
        && (ok <==> free && reply == Landed)
        && (ok ==> stack == old(seats)[SeatOf(k)])
    {
      ok, stack := false, 0;
      if reply != Refused && SeatOf(k) in seats && k !in pending.rows {
        stack := seats[SeatOf(k)];
        seats := seats - {SeatOf(k)};
        pending.rows := pending.rows[k := Row(k.player, stack, false, true, 0)];
        ok := reply == Landed;
      }
    }
  }

  datatype Room = Room(id: RoomId, bigBlind: int, buyInMin: int, buyInMax: int, maxSeats: nat)

  predicate AcceptableAmount(room: Room, amount: int) {
    room.bigBlind > 0 && room.buyInMin <= amount <= room.buyInMax && amount > 0 && amount % room.bigBlind == 0
  }

  predicate TableFull(room: Room, player: PlayerId, seats: map<Seat, nat>, occupied: nat) {
    Seat(room.id, player) !in seats && room.maxSeats > 0 && occupied >= room.maxSeats
  }

  // Everything that is checked before money moves is in order.
  predicate GoesToDebit(room: Room, player: PlayerId, amount: int, seats: map<Seat, nat>, occupied: nat, check: Reply) {
    && AcceptableAmount(room, amount) && check == Landed
    && SeatFree(seats, Seat(room.id, player)) && !TableFull(room, player, seats, occupied)
  }

  datatype BuyInReplies = BuyInReplies(check: Reply, debit: Reply, join: Reply, refund: Reply)
  datatype SettleReplies = SettleReplies(record: Reply, credit: Reply, resolve: Reply)

  // One buy-in alone, call by call.
  lemma BuyInAlone(s: Shared, k: Key, amount: nat, r: seq<Reply>)
    requires k.BuyInKey? && amount > 0 && |r| == 4
    ensures Solo(s, BuyInCheck(k, amount), r) ==
      if r[0] != Landed then (s, Done(false))
      else if !SeatFree(s.seats, SeatOf(k)) then (s, Done(true))
      else if r[1] == Refused then (s, Done(false))
      else
        var debited := DebitBuyIn(s, k, amount);
        if r[1] == Lost then (debited, Done(false))
        else
          var joined := if r[2] == Refused then debited else JoinSeat(debited, k, amount);
          if r[2] == Landed then (joined, Done(true))
          else (if r[3].Applied() then CreditRefund(joined, k, amount) else joined, Done(false))
  {
    hide AdvanceSettle, AdvanceSweep, Solo, CreditRefund, JoinSeat, Post;
    SoloFour(s, BuyInCheck(k, amount), r);
    assert SeatFree(DebitBuyIn(s, k, amount).seats, SeatOf(k)) == SeatFree(s.seats, SeatOf(k));
  }

  // What a buy-in that got as far as its debit, under a key new to the ledger, leaves:
  // the debit alone with the player seated, or the debit and a refund of the same
  // amount once the join failed.
  predicate SeatedOrRefunded(before: Shared, after: Shared, k: Key, amount: nat, ok: bool, r: BuyInReplies)
    requires k.BuyInKey?
  {
    var debited := before.ledger[k := Entry(k.player, 0 - amount)];
    var refunded := debited[RefundOf(k) := Entry(k.player, amount)];
    var seated := before.seats[Seat(k.room, k.player) := amount];
    match r.debit
    case Refused => !ok && after.ledger == before.ledger && after.seats == before.seats
    case Lost => !ok && after.ledger == debited && after.seats == before.seats
    case Landed =>
      && (ok <==> r.join == Landed)
      && after.ledger == (if r.join != Landed && r.refund.Applied() then refunded else debited)
      && after.seats == (if r.join == Refused then before.seats else seated)
  }

  lemma FromDebit(s: Shared, k: Key, amount: nat, r: BuyInReplies)
    requires k.BuyInKey? && amount > 0
    ensures
      k !in s.ledger && RefundOf(k) !in s.ledger && r.check == Landed && SeatFree(s.seats, SeatOf(k)) ==>
        var (after, pc) := Solo(s, BuyInCheck(k, amount), [r.check, r.debit, r.join, r.refund]);
        pc.Done? && SeatedOrRefunded(s, after, k, amount, pc.ok, r)
  {
    hide AdvancePc, Solo;
    BuyInAlone(s, k, amount, [r.check, r.debit, r.join, r.refund]);
  }

  // What holds of every buy-in once its amount is acceptable.
  lemma FromCheck(s: Shared, k: Key, amount: nat, r: seq<Reply>)
    requires k.BuyInKey? && amount > 0 && |r| == 4
    ensures var (after, pc) := Solo(s, BuyInCheck(k, amount), r);
      && pc.Done? && after.rows == s.rows
      && (pc.ok ==> SeatOf(k) in after.seats && after.seats[SeatOf(k)] > 0)
      && (!pc.ok ==> after.seats == s.seats || (r[2] == Lost && after.seats == s.seats[SeatOf(k) := amount]))
      && (r[0] != Landed ==> !pc.ok)
      && (r[0] == Landed && !SeatFree(s.seats, SeatOf(k)) ==> pc.ok && after.ledger == s.ledger && after.seats == s.seats)
      && (r[0] != Landed || r[1] == Refused ==> after.ledger == s.ledger && after.seats == s.seats)
  {
    hide AdvancePc, Solo;
    BuyInAlone(s, k, amount, r);
  }

  class Service {
    const wallet: Wallet
    const tables: Tables
    const pending: PendingStore

    constructor (wallet: Wallet, tables: Tables, pending: PendingStore)
      ensures this.wallet == wallet && this.tables == tables && this.pending == pending
    {
      this.wallet, this.tables, this.pending := wallet, tables, pending;
    }

    ghost function State(): Shared
      reads this, wallet, tables, pending
    {
      Shared(wallet.ledger, tables.seats, pending.rows, tables.joined, tables.raked)
    }

    // Debit, then seat; a failed join is refunded under the debit's own key, even one
    // that seated the player before it failed: only then can a failure leave chips. A
    // player with chips in front of them is told so without any debit, and a
    // full table refuses a newcomer before the debit.
    method BuyIn(room: Room, player: PlayerId, amount: int, token: Option<nat>, occupied: nat, r: BuyInReplies)
      returns (ok: bool)
      modifies wallet, tables
      ensures var k := BuyInKey(room.id, player, if token.Some? then Client(token.value) else OwnId(player));
        if !AcceptableAmount(room, amount) then !ok && State() == old(State())
        else
          var full := SeatOf(k) !in old(tables.seats) && room.maxSeats > 0 && occupied >= room.maxSeats;
          var check := if full then Refused else r.check;
          (State(), Done(ok)) == Solo(old(State()), BuyInCheck(k, amount), [check, r.debit, r.join, r.refund])
      ensures pending.rows == old(pending.rows)
      ensures ok ==> Seat(room.id, player) in tables.seats && tables.seats[Seat(room.id, player)] > 0
      ensures !ok ==>
        tables.seats == old(tables.seats) ||
        (r.join == Lost && tables.seats == old(tables.seats)[Seat(room.id, player) := amount])
      ensures !AcceptableAmount(room, amount) || r.check != Landed || TableFull(room, player, old(tables.seats), occupied) ==> !ok
      ensures AcceptableAmount(room, amount) && r.check == Landed && !SeatFree(old(tables.seats), Seat(room.id, player)) ==>
        ok && wallet.ledger == old(wallet.ledger) && tables.seats == old(tables.seats)
      ensures !AcceptableAmount(room, amount) || r.check != Landed || r.debit == Refused || TableFull(room, player, old(tables.seats), occupied) ==>
        wallet.ledger == old(wallet.ledger) && tables.seats == old(tables.seats)
      ensures
        var k := BuyInKey(room.id, player, if token.Some? then Client(token.value) else OwnId(player));
        k !in old(wallet.ledger) && RefundOf(k) !in old(wallet.ledger) &&
        GoesToDebit(room, player, amount, old(tables.seats), occupied, r.check) ==>
          SeatedOrRefunded(old(State()), State(), k, amount, ok, r)
    {
      hide AdvancePc, Solo, SeatedOrRefunded;
      if room.bigBlind <= 0 || amount < room.buyInMin || amount > room.buyInMax || amount <= 0 || amount % room.bigBlind != 0 {
        return false;
      }
      var nonce := if token.Some? then Client(token.value) else OwnId(player);
      var k := BuyInKey(room.id, player, nonce);
      var seat := Seat(room.id, player);
      ghost var full := seat !in tables.seats && room.maxSeats > 0 && occupied >= room.maxSeats;
      ghost var replies := [if full then Refused else r.check, r.debit, r.join, r.refund];
      BuyInAlone(State(), k, amount, replies);
      FromCheck(State(), k, amount, replies);
      FromDebit(State(), k, amount, r);
      if r.check != Landed { return false; }
      if seat in tables.seats && tables.seats[seat] > 0 { return true; }
      if seat !in tables.seats && room.maxSeats > 0 && occupied >= room.maxSeats { return false; }
      var debited := wallet.Move(k, player, 0 - amount, r.debit);
      if !debited { return false; }
      ok := tables.Join(k, amount, r.join);
      if !ok {
        var _ := wallet.Move(RefundOf(k), player, amount, r.refund);
      }
    }

    // Record, credit, resolve. Nothing is credited for an empty stack, and the
    // row is resolved only when no credit is owed or the credit succeeded.
    method Settle(k: Key, stack: nat, r: SettleReplies) returns (ok: bool)
      requires IsSettlement(k)
      modifies wallet, pending
      ensures (State(), Done(ok)) == Solo(old(State()), SettleRecord(k, stack), [r.record, r.credit, r.resolve])
      ensures ok && stack > 0 ==> k in wallet.ledger
      ensures ok ==> k in pending.rows && pending.rows[k].resolved && !pending.rows[k].open
      ensures tables.seats == old(tables.seats)
      ensures ok <==> r.record == Landed && (stack == 0 || r.credit == Landed) && r.resolve == Landed
      ensures r.record.Applied() ==> k in pending.rows
      ensures k !in old(pending.rows) && k in pending.rows ==>
        && pending.rows[k].player == k.player && pending.rows[k].amount == stack
        && (pending.rows[k].resolved <==> r.record == Landed && (stack == 0 || r.credit == Landed) && r.resolve.Applied())
      ensures k !in old(wallet.ledger) ==>
        wallet.ledger == if r.record == Landed && stack > 0 && r.credit.Applied()
                         then old(wallet.ledger)[k := Entry(k.player, stack)] else old(wallet.ledger)
    {
      hide AdvanceBuyIn, AdvanceSweep, Solo;
      SoloThree(State(), SettleRecord(k, stack), [r.record, r.credit, r.resolve]);
      var recorded := pending.Record(k, k.player, stack, r.record);
      if !recorded { return false; }
      var credited := true;
      if stack > 0 {
        credited := wallet.Move(k, k.player, stack, r.credit);
      }
      if !credited { return false; }
      ok := pending.MarkResolved(k, r.resolve);
    }

    // Removes the seat together with its recovery row, then settles it.
    method CashOut(room: RoomId, player: PlayerId, token: Option<nat>, leave: Reply, r: SettleReplies)
      returns (ok: bool, stack: nat)
      modifies wallet, tables, pending
      ensures (State(), Done(ok)) == Solo(old(State()), Leaving(CashOutKey(room, player, token)), [leave, r.record, r.credit, r.resolve])
      ensures ok ==> Seat(room, player) in old(tables.seats) && stack == old(tables.seats)[Seat(room, player)]
      ensures ok ==> tables.seats == old(tables.seats) - {Seat(room, player)}
      ensures var k, seat := CashOutKey(room, player, token), Seat(room, player);
        seat in old(tables.seats) && k !in old(pending.rows) && k !in old(wallet.ledger) && leave.Applied() ==>
          && tables.seats == old(tables.seats) - {seat}
          && k in pending.rows && pending.rows[k].amount == old(tables.seats)[seat] && pending.rows[k].player == player
          && (ok <==> leave == Landed && r.record == Landed && (old(tables.seats)[seat] == 0 || r.credit == Landed) && r.resolve == Landed)
          && wallet.ledger == (if leave == Landed && r.record == Landed && old(tables.seats)[seat] > 0 && r.credit.Applied()
                               then old(wallet.ledger)[k := Entry(player, old(tables.seats)[seat])] else old(wallet.ledger))
      ensures leave == Refused || Seat(room, player) !in old(tables.seats) || CashOutKey(room, player, token) in old(pending.rows) ==>
        !ok && tables.seats == old(tables.seats) && wallet.ledger == old(wallet.ledger) && pending.rows == old(pending.rows)
      ensures ok && stack > 0 && CashOutKey(room, player, token) !in old(wallet.ledger) ==>
        wallet.ledger == old(wallet.ledger)[CashOutKey(room, player, token) := Entry(player, stack)]
    {
      hide AdvanceBuyIn, AdvanceSweep, Solo;
      var k := CashOutKey(room, player, token);
      SoloFour(State(), Leaving(k), [leave, r.record, r.credit, r.resolve]);
      ghost var before := State();
      ok, stack := tables.LeaveSeat(pending, k, leave);
      if !ok { return false, 0; }
      assert State() == Leave(before, k);
      SoloThree(State(), SettleRecord(k, stack), [r.record, r.credit, r.resolve]);
      ok := Settle(k, stack, r);
    }

    // The follow-up of a removal the table already committed: its row is there.
    method SettleSystemRemoval(room: RoomId, player: PlayerId, stack: nat, reason: nat, token: Option<nat>, r: SettleReplies)
      returns (ok: bool)
      modifies wallet, pending
      ensures (State(), Done(ok)) ==
        Solo(old(State()), SettleRecord(SystemLeaveKey(room, player, reason, token), stack), [r.record, r.credit, r.resolve])
    {
      ok := Settle(SystemLeaveKey(room, player, reason, token), stack, r);
    }
  }

  // Whether an entry belongs in the aggregated error of the sweep.
  predicate NeedsAttention(rows: map<Key, Row>, e: Due, credit: Reply, book: Reply) {
    if credit == Landed && e.row.amount > 0 then book != Landed
    else book != Landed || e.key !in rows || e.row.attempts + 1 >= MAX_ATTEMPTS
  }

  function Attention(rows: map<Key, Row>, q: seq<Due>, replies: seq<Reply>): seq<Key>
    requires |replies| == 2 * |q|
    decreases |q|
  {
    if q == [] then []
    else
      var n := |q| - 1;
      Attention(rows, q[..n], replies[..2 * n]) +
      if NeedsAttention(rows, q[n], replies[2 * n], replies[2 * n + 1]) then [q[n].key] else []
  }

  // What the sweep does with one entry, given its two replies.
  function SweepEntry(s: Shared, e: Due, credit: Reply, book: Reply): Shared {
    var paid := if credit.Applied() && e.row.amount > 0 then CreditRow(s, e.key, e.row.player, e.row.amount) else s;
    if !book.Applied() then paid
    else if credit == Landed && e.row.amount > 0 then paid.(rows := ResolveRow(s.rows, e.key))
    else paid.(rows := FailRow(s.rows, e.key, e.row))
  }

  lemma SweepEntryIsTwoSteps(s: Shared, q: seq<Due>, replies: seq<Reply>)
    requires q != [] && |replies| >= 2
    ensures Solo(s, Sweep(q), replies) == Solo(SweepEntry(s, q[0], replies[0], replies[1]), Sweep(q[1..]), replies[2..])
  {
    SoloTwice(s, Sweep(q), replies);
  }

  method ReconcileEntry(wallet: Wallet, pending: PendingStore, e: Due, credit: Reply, book: Reply) returns (attention: bool)
    modifies wallet, pending
    ensures forall s: Shared :: s.ledger == old(wallet.ledger) && s.rows == old(pending.rows) ==>
      SweepEntry(s, e, credit, book) == s.(ledger := wallet.ledger, rows := pending.rows)
    ensures attention <==> NeedsAttention(old(pending.rows), e, credit, book)
    ensures pending.rows.Keys == old(pending.rows).Keys
    ensures wallet.ledger ==
      if credit.Applied() && e.row.amount > 0 && e.key !in old(wallet.ledger)
      then old(wallet.ledger)[e.key := Entry(e.row.player, e.row.amount)] else old(wallet.ledger)
    ensures e.key in old(pending.rows) && book.Applied() ==>
      if credit == Landed && e.row.amount > 0
      then pending.rows[e.key].resolved && !pending.rows[e.key].open
      else
        && pending.rows[e.key].attempts == e.row.attempts + 1 && pending.rows[e.key].resolved == old(pending.rows)[e.key].resolved
        && (pending.rows[e.key].open <==> old(pending.rows)[e.key].open && e.row.attempts + 1 < 5)
    ensures book != Landed ==> attention
    ensures book == Landed && e.key in old(pending.rows) ==>
      (attention <==> (credit != Landed || e.row.amount == 0) && e.row.attempts + 1 >= 5)
    ensures !book.Applied() ==> pending.rows == old(pending.rows)
    ensures forall j :: j in pending.rows && j != e.key ==> pending.rows[j] == old(pending.rows)[j]
  {
    var credited := wallet.Move(e.key, e.row.player, e.row.amount, credit);
    if credited {
      var resolved := pending.MarkResolved(e.key, book);
      attention := !resolved;
    } else {
      var counted, quarantined := pending.RecordFailedAttempt(e, book);
      attention := !counted || quarantined;
    }
  }

  // The sweep: one credit and one bookkeeping write per entry. A failed entry
  // never stops the ones behind it.
  method Reconcile(wallet: Wallet, pending: PendingStore, tables: Tables, q: seq<Due>, replies: seq<Reply>)
    returns (failures: seq<Key>)
    requires |replies| == 2 * |q|
    modifies wallet, pending
    ensures (Shared(wallet.ledger, tables.seats, pending.rows, tables.joined, tables.raked), Sweep([])) ==
      Solo(old(Shared(wallet.ledger, tables.seats, pending.rows, tables.joined, tables.raked)), Sweep(q), replies)
    ensures failures == Attention(old(pending.rows), q, replies)
  {
    hide SweepEntry, AdvancePc;
    ghost var start := Shared(wallet.ledger, tables.seats, pending.rows, tables.joined, tables.raked);
    ghost var s := start;
    failures := [];
    assert q[0..] == q && replies[0..] == replies;
    for i := 0 to |q|
      invariant s == start.(ledger := wallet.ledger, rows := pending.rows)
      invariant pending.rows.Keys == old(pending.rows).Keys
      invariant Solo(s, Sweep(q[i..]), replies[2 * i..]) == Solo(start, Sweep(q), replies)
      invariant failures == Attention(old(pending.rows), q[..i], replies[..2 * i])
    {
      SweepEntryIsTwoSteps(s, q[i..], replies[2 * i..]);
      assert replies[2 * i..][2..] == replies[2 * (i + 1)..];
      assert q[i..][1..] == q[i + 1..];
      s := SweepEntry(s, q[i], replies[2 * i], replies[2 * i + 1]);
      var attention := ReconcileEntry(wallet, pending, q[i], replies[2 * i], replies[2 * i + 1]);
      assert q[..i + 1][..i] == q[..i] && replies[..2 * (i + 1)][..2 * i] == replies[..2 * i];
      if attention {
        failures := failures + [q[i].key];
      }
    }
    assert q[..|q|] == q && replies[..2 * |q|] == replies;
  }

  lemma SoloThree(s: Shared, pc: Pc, r: seq<Reply>)
    requires WellKeyed(pc) && |r| == 3
    ensures var a := AdvancePc(s, pc, r[0]);
      var b := AdvancePc(a.0, a.1, r[1]);
      Solo(s, pc, r) == AdvancePc(b.0, b.1, r[2])
  {
    var a := AdvancePc(s, pc, r[0]);
    var b := AdvancePc(a.0, a.1, r[1]);
    assert r[1..][1..] == [r[2]];
    assert Solo(b.0, b.1, [r[2]]) == AdvancePc(b.0, b.1, r[2]);
  }

  lemma SoloFour(s: Shared, pc: Pc, r: seq<Reply>)
    requires WellKeyed(pc) && |r| == 4
    ensures var a := AdvancePc(s, pc, r[0]);
      var b := AdvancePc(a.0, a.1, r[1]);
      var c := AdvancePc(b.0, b.1, r[2]);
      Solo(s, pc, r) == AdvancePc(c.0, c.1, r[3]) == Solo(a.0, a.1, r[1..])
  {
    var a := AdvancePc(s, pc, r[0]);
    SoloThree(a.0, a.1, r[1..]);
  }
}
