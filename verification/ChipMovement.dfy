// Sandbox chips in motion: buy-in, cash-out, system removal and the reconcile
// sweep, as atomic steps over the wallet ledger, the seats and the settlement
// rows. A call in progress is a program counter, so every interleaving, crash
// and lost reply of those calls is a list of actions.
module ChipMovement {
  import opened Sums
  import opened Replies

  type PlayerId = nat
  type RoomId = nat
  type ThreadId = nat

  // A buy-in without a client token falls back to the player's own id.
  datatype Nonce = Client(token: nat) | OwnId(owner: PlayerId)

  // Idempotency keys. Each constructor is one key builder of the service.
  datatype Key =
    | BuyInKey(room: RoomId, player: PlayerId, nonce: Nonce)
    | RefundKey(room: RoomId, player: PlayerId, nonce: Nonce)
    | CashOutKey(room: RoomId, player: PlayerId, token: Option<nat>)
    | SystemLeaveKey(room: RoomId, player: PlayerId, reason: nat, token: Option<nat>)

  datatype Seat = Seat(room: RoomId, player: PlayerId)
  datatype Entry = Entry(player: PlayerId, delta: int)
  datatype Row = Row(player: PlayerId, amount: nat, resolved: bool, open: bool, attempts: nat)

  // Everything the calls share. `joined` is the history of buy-in keys whose
  // seat has committed; `raked` is what hands have taken out of the stacks.
  datatype Shared = Shared(
    ledger: map<Key, Entry>,
    seats: map<Seat, nat>,
    rows: map<Key, Row>,
    joined: set<Key>,
    raked: nat)

  const MAX_ATTEMPTS: nat := 5

  predicate IsSettlement(k: Key) { k.CashOutKey? || k.SystemLeaveKey? }

  function RefundOf(k: Key): Key
    requires k.BuyInKey?
  {
    RefundKey(k.room, k.player, k.nonce)
  }

  function SeatOf(k: Key): Seat { Seat(k.room, k.player) }

  // ---------- Atomic store and wallet operations ----------

  // The wallet moves money the first time it sees a key, and never again.
  function Post(ledger: map<Key, Entry>, k: Key, player: PlayerId, delta: int): map<Key, Entry> {
    if k in ledger then ledger else ledger[k := Entry(player, delta)]
  }

  // A join restores a busted seat or takes a new one; chips still in front of
  // the player mean somebody else's join already committed.
  predicate SeatFree(seats: map<Seat, nat>, seat: Seat) {
    seat in seats ==> seats[seat] == 0
  }

  // A settlement row is written once; a later Record changes nothing.
  function RecordRow(rows: map<Key, Row>, k: Key, player: PlayerId, amount: nat): map<Key, Row> {
    if k in rows then rows else rows[k := Row(player, amount, false, true, 0)]
  }

  function ResolveRow(rows: map<Key, Row>, k: Key): map<Key, Row> {
    if k in rows then rows[k := rows[k].(resolved := true, open := false)] else rows
  }

  // The attempt counter is the one read with the entry, plus one; the fifth
  // failure takes the row out of the sweep.
  function FailRow(rows: map<Key, Row>, k: Key, seen: Row): map<Key, Row> {
    if k !in rows then rows
    else
      var attempts := seen.attempts + 1;
      rows[k := rows[k].(attempts := attempts, open := rows[k].open && attempts < MAX_ATTEMPTS)]
  }

  // The seat removal and its settlement row commit together; a row already
  // under this key aborts both.
  predicate CanLeave(s: Shared, k: Key) {
    SeatOf(k) in s.seats && k !in s.rows
  }

  function Leave(s: Shared, k: Key): Shared
    requires CanLeave(s, k)
  {
    s.(seats := s.seats - {SeatOf(k)}, rows := RecordRow(s.rows, k, k.player, s.seats[SeatOf(k)]))
  }

  function DebitBuyIn(s: Shared, k: Key, amount: nat): Shared {
    s.(ledger := Post(s.ledger, k, k.player, 0 - amount))
  }

  function JoinSeat(s: Shared, k: Key, amount: nat): Shared {
    s.(seats := s.seats[SeatOf(k) := amount], joined := s.joined + {k})
  }

  function CreditRefund(s: Shared, k: Key, amount: nat): Shared
    requires k.BuyInKey?
  {
    s.(ledger := Post(s.ledger, RefundOf(k), k.player, amount))
  }

  // The wallet refuses a zero credit outright.
  function CreditRow(s: Shared, k: Key, player: PlayerId, amount: nat): Shared {
    if amount == 0 then s else s.(ledger := Post(s.ledger, k, player, amount))
  }

  // ---------- Calls in progress ----------

  datatype Due = Due(key: Key, row: Row)

  datatype Pc =
    | BuyInCheck(key: Key, amount: nat)
    | BuyInDebit(key: Key, amount: nat)
    | BuyInJoin(key: Key, amount: nat)
    | BuyInRefund(key: Key, amount: nat)
    | Leaving(key: Key)
    | SettleRecord(key: Key, stack: nat)
    | SettleCredit(key: Key, stack: nat)
    | SettleResolve(key: Key)
    | Sweep(queue: seq<Due>)
    | SweepFailed(queue: seq<Due>)
    | SweepResolve(queue: seq<Due>)
    | Done(ok: bool)

  datatype World = World(shared: Shared, threads: map<ThreadId, Pc>, started: set<Key>)

  datatype Action =
    | StartBuyIn(t: ThreadId, key: Key, amount: nat)
    | StartCashOut(t: ThreadId, key: Key)
    | StartRemoval(t: ThreadId, key: Key)
    | StartSweep(t: ThreadId, due: seq<Key>)
    | Advance(t: ThreadId, reply: Reply)
    | Crash(t: ThreadId)
    | Play(loser: Seat, winner: Seat, amount: nat, rake: nat)

  // The seat check of a buy-in: chips in front of the player end the call as a
  // success, anything else goes on to the debit. Whatever error the join reports,
  // the debit is refunded, even if the seat has committed.
  function AdvanceBuyIn(s: Shared, pc: Pc, reply: Reply): (Shared, Pc)
    requires pc.BuyInCheck? || pc.BuyInDebit? || pc.BuyInJoin? || pc.BuyInRefund?
    requires pc.key.BuyInKey?
  {
    match pc
    case BuyInCheck(k, amount) =>
      if reply != Landed then (s, Done(false))
      else if !SeatFree(s.seats, SeatOf(k)) then (s, Done(true))
      else (s, BuyInDebit(k, amount))
    case BuyInDebit(k, amount) =>
      if reply == Refused then (s, Done(false))
      else (DebitBuyIn(s, k, amount), if reply == Landed then BuyInJoin(k, amount) else Done(false))
    case BuyInJoin(k, amount) =>
      if reply == Refused || !SeatFree(s.seats, SeatOf(k)) then (s, BuyInRefund(k, amount))
      else (JoinSeat(s, k, amount), if reply == Landed then Done(true) else BuyInRefund(k, amount))
    case BuyInRefund(k, amount) =>
      (if reply.Applied() then CreditRefund(s, k, amount) else s, Done(false))
  }

  function AdvanceSettle(s: Shared, pc: Pc, reply: Reply): (Shared, Pc)
    requires pc.Leaving? || pc.SettleRecord? || pc.SettleCredit? || pc.SettleResolve?
  {
    match pc
    case Leaving(k) =>
      if reply == Refused || !CanLeave(s, k) then (s, Done(false))
      else (Leave(s, k), if reply == Landed then SettleRecord(k, s.seats[SeatOf(k)]) else Done(false))
    case SettleRecord(k, stack) =>
      if reply == Refused then (s, Done(false))
      else (s.(rows := RecordRow(s.rows, k, k.player, stack)),
            if reply == Landed then SettleCredit(k, stack) else Done(false))
    case SettleCredit(k, stack) =>
      if stack == 0 then (s, SettleResolve(k))
      else if reply == Refused then (s, Done(false))
      else (CreditRow(s, k, k.player, stack), if reply == Landed then SettleResolve(k) else Done(false))
    case SettleResolve(k) =>
      (if reply.Applied() then s.(rows := ResolveRow(s.rows, k)) else s, Done(reply == Landed))
  }

  function AdvanceSweep(s: Shared, pc: Pc, reply: Reply): (Shared, Pc)
    requires pc.Sweep? || pc.SweepFailed? || pc.SweepResolve?
  {
    if pc.queue == [] then (s, Done(true))
    else
      var e, rest := pc.queue[0], pc.queue[1..];
      match pc
      case Sweep(_) =>
        if reply == Refused || e.row.amount == 0 then (s, SweepFailed(pc.queue))
        else (CreditRow(s, e.key, e.row.player, e.row.amount),
              if reply == Landed then SweepResolve(pc.queue) else SweepFailed(pc.queue))
      case SweepFailed(_) =>
        (if reply.Applied() then s.(rows := FailRow(s.rows, e.key, e.row)) else s, Sweep(rest))
      case SweepResolve(_) =>
        (if reply.Applied() then s.(rows := ResolveRow(s.rows, e.key)) else s, Sweep(rest))
  }

  // Buy-in threads always carry a buy-in key; Step only ever starts those.
  predicate WellKeyed(pc: Pc) {
    match pc
    case BuyInCheck(k, a) => k.BuyInKey? && a > 0
    case BuyInDebit(k, a) => k.BuyInKey? && a > 0
    case BuyInJoin(k, a) => k.BuyInKey? && a > 0
    case BuyInRefund(k, a) => k.BuyInKey? && a > 0
    case Leaving(k) => IsSettlement(k)
    case SettleRecord(k, _) => IsSettlement(k)
    case SettleCredit(k, _) => IsSettlement(k)
    case SettleResolve(k) => IsSettlement(k)
    case Sweep(_) => true
    case SweepFailed(_) => true
    case SweepResolve(_) => true
    case Done(_) => true
  }

  function AdvancePc(s: Shared, pc: Pc, reply: Reply): (next: (Shared, Pc))
    requires WellKeyed(pc)
    ensures WellKeyed(next.1)
  {
    match pc
    case BuyInCheck(_, _) => AdvanceBuyIn(s, pc, reply)
    case BuyInDebit(_, _) => AdvanceBuyIn(s, pc, reply)
    case BuyInJoin(_, _) => AdvanceBuyIn(s, pc, reply)
    case BuyInRefund(_, _) => AdvanceBuyIn(s, pc, reply)
    case Leaving(_) => AdvanceSettle(s, pc, reply)
    case SettleRecord(_, _) => AdvanceSettle(s, pc, reply)
    case SettleCredit(_, _) => AdvanceSettle(s, pc, reply)
    case SettleResolve(_) => AdvanceSettle(s, pc, reply)
    case Sweep(_) => AdvanceSweep(s, pc, reply)
    case SweepFailed(_) => AdvanceSweep(s, pc, reply)
    case SweepResolve(_) => AdvanceSweep(s, pc, reply)
    case Done(_) => (s, pc)
  }

  predicate Listed(rows: map<Key, Row>, due: seq<Key>) {
    forall i :: 0 <= i < |due| ==> due[i] in rows && rows[due[i]].open && !rows[due[i]].resolved
  }

  function Snapshots(rows: map<Key, Row>, due: seq<Key>): (q: seq<Due>)
    requires Listed(rows, due)
    ensures |q| == |due|
    ensures forall i :: 0 <= i < |q| ==> q[i] == Due(due[i], rows[due[i]])
  {
    seq(|due|, i requires 0 <= i < |due| => Due(due[i], rows[due[i]]))
  }

  predicate Playable(s: Shared, loser: Seat, winner: Seat, amount: nat, rake: nat) {
    loser in s.seats && winner in s.seats && loser != winner && loser.room == winner.room &&
    rake <= amount <= s.seats[loser]
  }

  // A hand moves chips between two seats of one table, less the rake.
  function PlayHand(s: Shared, loser: Seat, winner: Seat, amount: nat, rake: nat): Shared
    requires Playable(s, loser, winner, amount, rake)
  {
    s.(seats := s.seats[loser := s.seats[loser] - amount][winner := s.seats[winner] + (amount - rake)],
       raked := s.raked + rake)
  }

  // One action. An action that is not enabled changes nothing.
  function Step(w: World, a: Action): World {
    match a
    case StartBuyIn(t, k, amount) =>
      if t in w.threads || !k.BuyInKey? || amount == 0 then w
      else w.(threads := w.threads[t := BuyInCheck(k, amount)], started := w.started + {k})
    case StartCashOut(t, k) =>
      if t in w.threads || !k.CashOutKey? then w
      else w.(threads := w.threads[t := Leaving(k)])
    case StartRemoval(t, k) =>
      if t in w.threads || !k.SystemLeaveKey? then w
      else w.(threads := w.threads[t := Leaving(k)])
    case StartSweep(t, due) =>
      if t in w.threads || !Listed(w.shared.rows, due) then w
      else w.(threads := w.threads[t := Sweep(Snapshots(w.shared.rows, due))])
    case Advance(t, reply) =>
      if t !in w.threads || !WellKeyed(w.threads[t]) then w
      else
        var (s, pc) := AdvancePc(w.shared, w.threads[t], reply);
        w.(shared := s, threads := w.threads[t := pc])
    case Crash(t) =>
      if t !in w.threads then w else w.(threads := w.threads[t := Done(false)])
    case Play(loser, winner, amount, rake) =>
      if !Playable(w.shared, loser, winner, amount, rake) then w
      else w.(shared := PlayHand(w.shared, loser, winner, amount, rake))
  }

  function Run(w: World, actions: seq<Action>): World
    decreases |actions|
  {
    if actions == [] then w else Step(Run(w, actions[..|actions| - 1]), actions[|actions| - 1])
  }

  lemma RunLast(w: World, actions: seq<Action>, a: Action)
    ensures Run(w, actions + [a]) == Step(Run(w, actions), a)
  {
    assert (actions + [a])[..|actions|] == actions;
  }

  // One call on its own, its external replies given in order.
  function Solo(s: Shared, pc: Pc, replies: seq<Reply>): (Shared, Pc)
    requires WellKeyed(pc)
    decreases |replies|
  {
    if replies == [] then (s, pc)
    else
      var next := AdvancePc(s, pc, replies[0]);
      Solo(next.0, next.1, replies[1..])
  }

  function Advances(t: ThreadId, replies: seq<Reply>): (actions: seq<Action>)
    ensures |actions| == |replies|
  {
    seq(|replies|, i requires 0 <= i < |replies| => Advance(t, replies[i]))
  }

  lemma {:induction false} RunFirst(w: World, a: Action, rest: seq<Action>)
    ensures Run(w, [a] + rest) == Run(Step(w, a), rest)
    decreases |rest|
  {
    if rest == [] {
      assert [a] + rest == [a];
      assert [a][..0] == [];
    } else {
      var last := rest[|rest| - 1];
      assert ([a] + rest)[..|rest|] == [a] + rest[..|rest| - 1];
      RunFirst(w, a, rest[..|rest| - 1]);
    }
  }

  // A call on its own is a run of the machine, so whatever holds of every run
  // holds of it.
  lemma {:induction false} SoloIsRun(w: World, t: ThreadId, replies: seq<Reply>)
    requires t in w.threads && WellKeyed(w.threads[t])
    ensures var w' := Run(w, Advances(t, replies));
      t in w'.threads && (w'.shared, w'.threads[t]) == Solo(w.shared, w.threads[t], replies)
    decreases |replies|
  {
    if replies != [] {
      var a := Advance(t, replies[0]);
      assert Advances(t, replies) == [a] + Advances(t, replies[1..]);
      RunFirst(w, a, Advances(t, replies[1..]));
      SoloIsRun(Step(w, a), t, replies[1..]);
    }
  }
}
