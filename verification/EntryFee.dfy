// The real-money entry fee: reservations claimed, rebound and confirmed while
// buy-ins race, debits fail and the sweep retries. Rows, ledger and clock are
// shared; each call is a program counter, so a run is a list of actions.
module EntryFee {
  import opened Sums
  import opened Replies

  type PlayerId = nat
  type RoomId = nat
  type ThreadId = nat
  type Time = nat  // unix seconds

  const WINDOW: nat := 3 * 60 * 60
  const TTL_SLACK: nat := 24 * 60 * 60
  const MAX_ATTEMPTS: nat := 5

  datatype Room = Room(tier: nat, fee: nat)
  datatype Slot = Slot(player: PlayerId, origin: RoomId)
  datatype Ent = Ent(slot: Slot, bound: RoomId, tier: nat, fee: nat, expires: Time)

  // Durable facts only: the origin table, the player and the exact window.
  datatype FeeKey = FeeKey(slot: Slot, expires: Time)

  datatype FeeRow = FeeRow(amount: nat, resolved: bool, open: bool, attempts: nat)
  datatype Availability = Taken | Gone | Unknown

  // What the outside supplies to one external call: the time that passed, the
  // reply, the reservations a query page returned, and whether the bound table
  // could be reached.
  datatype Env = Env(tick: nat, reply: Reply, page: seq<RoomId>, bound: Availability)

  // The store's own history, used to state what claims and rebinds add up to.
  datatype Event =
    | Claimed(slot: Slot, readAt: Time, at: Time)
    | Moved(slot: Slot, from: RoomId, to: RoomId)

  datatype Shared = Shared(
    rooms: map<RoomId, Room>,
    ents: map<Slot, Ent>,
    rows: map<FeeKey, FeeRow>,
    ledger: map<FeeKey, nat>,
    now: Time,
    log: seq<Event>)

  function KeyOf(e: Ent): FeeKey { FeeKey(e.slot, e.expires) }

  // ---------- Atomic operations ----------

  predicate CanClaim(s: Shared, slot: Slot) {
    slot in s.ents ==> s.ents[slot].expires <= s.now
  }

  function Claim(s: Shared, e: Ent, readAt: Time): Shared {
    s.(ents := s.ents[e.slot := e], log := s.log + [Claimed(e.slot, readAt, s.now)])
  }

  // A full compare-and-swap: the row exists, is unexpired, and is still bound
  // where the caller saw it.
  predicate CanRebind(s: Shared, slot: Slot, expected: RoomId) {
    slot in s.ents && s.ents[slot].expires > s.now && s.ents[slot].bound == expected
  }

  function Rebind(s: Shared, slot: Slot, expected: RoomId, to: RoomId): Shared
    requires CanRebind(s, slot, expected)
  {
    s.(ents := s.ents[slot := s.ents[slot].(bound := to)], log := s.log + [Moved(slot, expected, to)])
  }

  // The unexpired reservations of a player among the rows one page returned.
  function Active(s: Shared, player: PlayerId, page: seq<RoomId>): (out: seq<Ent>)
    ensures forall e :: e in out <==>
      exists i :: 0 <= i < |page| && Slot(player, page[i]) in s.ents && e == s.ents[Slot(player, page[i])] && e.expires > s.now
    decreases |page|
  {
    if page == [] then []
    else
      var slot := Slot(player, page[|page| - 1]);
      Active(s, player, page[..|page| - 1]) +
      if slot in s.ents && s.ents[slot].expires > s.now then [s.ents[slot]] else []
  }

  function RecordFee(s: Shared, e: Ent): Shared {
    if KeyOf(e) in s.rows then s
    else s.(rows := s.rows[KeyOf(e) := FeeRow(e.fee, false, true, 0)])
  }

  // The wallet charges a key the first time it sees it.
  function Charge(s: Shared, k: FeeKey, amount: nat): Shared {
    if k in s.ledger then s else s.(ledger := s.ledger[k := amount])
  }

  function ResolveFee(s: Shared, k: FeeKey): Shared {
    if k in s.rows then s.(rows := s.rows[k := s.rows[k].(resolved := true, open := false)]) else s
  }

  function FailFee(s: Shared, k: FeeKey, seen: FeeRow): Shared {
    if k !in s.rows then s
    else
      var attempts := seen.attempts + 1;
      s.(rows := s.rows[k := s.rows[k].(attempts := attempts, open := s.rows[k].open && attempts < MAX_ATTEMPTS)])
  }

  // ---------- Calls in progress ----------

  datatype Due = Due(key: FeeKey, row: FeeRow)

  datatype Pc =
    | Load
    | Scan(rest: seq<Ent>, readAt: Time)
    | Rebinding(e: Ent, rest: seq<Ent>, readAt: Time)
    | Claiming(e: Ent, readAt: Time)
    | Reload
    | Confirm(e: Ent, readAt: Time)
    | Record(e: Ent, readAt: Time)
    | Charging(e: Ent, readAt: Time)
    | Resolve(e: Ent, readAt: Time)
    | Admitted(e: Ent, readAt: Time)
    | Failed

  datatype Thread =
    | BuyIn(room: RoomId, player: PlayerId, pc: Pc)
    | Sweep(queue: seq<Due>)
    | SweepFailed(queue: seq<Due>)
    | SweepResolve(queue: seq<Due>)

  predicate ExactMatch(e: Ent, tier: nat, room: RoomId) { e.tier == tier && e.bound == room }

  function FirstMatch(ents: seq<Ent>, tier: nat, room: RoomId): (r: Option<Ent>)
    ensures r.Some? ==> r.value in ents && ExactMatch(r.value, tier, room)
    ensures r.None? ==> forall e :: e in ents ==> !ExactMatch(e, tier, room)
  {
    if ents == [] then None
    else if ExactMatch(ents[0], tier, room) then Some(ents[0])
    else FirstMatch(ents[1..], tier, room)
  }

  function FirstAt(ents: seq<Ent>, origin: RoomId): (r: Option<Ent>)
    ensures r.Some? ==> r.value in ents && r.value.slot.origin == origin
    ensures r.None? ==> forall e :: e in ents ==> e.slot.origin != origin
  {
    if ents == [] then None
    else if ents[0].slot.origin == origin then Some(ents[0])
    else FirstAt(ents[1..], origin)
  }

  function FreshEnt(s: Shared, room: RoomId, player: PlayerId): Ent
    requires room in s.rooms
  {
    Ent(Slot(player, room), room, s.rooms[room].tier, s.rooms[room].fee, s.now + WINDOW)
  }

  // The first read: an exact match is confirmed, anything else is scanned.
  function OnLoad(s: Shared, room: RoomId, player: PlayerId, env: Env): Pc
    requires room in s.rooms
  {
    if env.reply != Landed then Failed
    else
      var found := Active(s, player, env.page);
      var exact := FirstMatch(found, s.rooms[room].tier, room);
      if exact.Some? then Confirm(exact.value, s.now) else Scan(found, s.now)
  }

  // The next rebind candidate; with none left, a fresh claim is prepared. A
  // failed availability check only skips its own candidate.
  function OnScan(s: Shared, room: RoomId, player: PlayerId, rest: seq<Ent>, readAt: Time, env: Env): Pc
    requires room in s.rooms
  {
    if rest == [] then Claiming(FreshEnt(s, room, player), s.now)
    else
      var e := rest[0];
      if e.tier != s.rooms[room].tier || e.bound == room || env.bound != Gone then Scan(rest[1..], readAt)
      else Rebinding(e, rest[1..], readAt)
  }

  function OnRebinding(s: Shared, room: RoomId, e: Ent, rest: seq<Ent>, readAt: Time, env: Env): (Shared, Pc) {
    if env.reply == Refused then (s, Failed)
    else if !CanRebind(s, e.slot, e.bound) then (s, Scan(rest, readAt))
    else (Rebind(s, e.slot, e.bound, room), if env.reply == Landed then Confirm(e, readAt) else Failed)
  }

  function OnClaiming(s: Shared, e: Ent, readAt: Time, env: Env): (Shared, Pc) {
    if env.reply == Refused then (s, Failed)
    else if !CanClaim(s, e.slot) then (s, Reload)
    else (Claim(s, e, readAt), if env.reply == Landed then Record(e, readAt) else Failed)
  }

  // The loser of a claim reads the row that won.
  function OnReload(s: Shared, room: RoomId, player: PlayerId, env: Env): Pc {
    if env.reply != Landed then Failed
    else
      var winner := FirstAt(Active(s, player, env.page), room);
      if winner.Some? then Confirm(winner.value, s.now) else Failed
  }

  function OnConfirm(s: Shared, e: Ent, readAt: Time, env: Env): Pc {
    if e.fee == 0 then Admitted(e, readAt)
    else if env.reply != Landed then Failed
    else if KeyOf(e) in s.rows && s.rows[KeyOf(e)].resolved then Admitted(e, readAt)
    else Record(e, readAt)
  }

  function OnRecord(s: Shared, e: Ent, readAt: Time, env: Env): (Shared, Pc) {
    if env.reply == Refused then (s, Failed)
    else (RecordFee(s, e), if env.reply == Landed then Charging(e, readAt) else Failed)
  }

  function OnCharging(s: Shared, e: Ent, readAt: Time, env: Env): (Shared, Pc) {
    if env.reply == Refused then (s, Failed)
    else (Charge(s, KeyOf(e), e.fee), if env.reply == Landed then Resolve(e, readAt) else Failed)
  }

  // A resolve that fails is not fatal: the charge itself is done.
  function OnResolve(s: Shared, e: Ent, readAt: Time, env: Env): (Shared, Pc) {
    (if env.reply.Applied() then ResolveFee(s, KeyOf(e)) else s, Admitted(e, readAt))
  }

  // One step of resolving a buy-in's reservation.
  function AdvanceBuyIn(s: Shared, room: RoomId, player: PlayerId, pc: Pc, env: Env): (next: (Shared, Pc))
    requires room in s.rooms
    ensures next.0.rooms == s.rooms && next.0.now == s.now
  {
    match pc
    case Load => (s, OnLoad(s, room, player, env))
    case Scan(rest, readAt) => (s, OnScan(s, room, player, rest, readAt, env))
    case Rebinding(e, rest, readAt) => OnRebinding(s, room, e, rest, readAt, env)
    case Claiming(e, readAt) => OnClaiming(s, e, readAt, env)
    case Reload => (s, OnReload(s, room, player, env))
    case Confirm(e, readAt) => (s, OnConfirm(s, e, readAt, env))
    case Record(e, readAt) => OnRecord(s, e, readAt, env)
    case Charging(e, readAt) => OnCharging(s, e, readAt, env)
    case Resolve(e, readAt) => OnResolve(s, e, readAt, env)
    case Admitted(_, _) => (s, pc)
    case Failed => (s, pc)
  }

  function AdvanceSweep(s: Shared, th: Thread, env: Env): (Shared, Thread)
    requires !th.BuyIn?
  {
    if th.queue == [] then (s, th)
    else
      var e, rest := th.queue[0], th.queue[1..];
      match th
      case Sweep(_) =>
        if env.reply == Refused then (s, SweepFailed(th.queue))
        else (Charge(s, e.key, e.row.amount), if env.reply == Landed then SweepResolve(th.queue) else SweepFailed(th.queue))
      case SweepFailed(_) => (if env.reply.Applied() then FailFee(s, e.key, e.row) else s, Sweep(rest))
      case SweepResolve(_) => (if env.reply.Applied() then ResolveFee(s, e.key) else s, Sweep(rest))
  }

  function AdvanceThread(s: Shared, th: Thread, env: Env): (Shared, Thread)
    requires th.BuyIn? ==> th.room in s.rooms
  {
    if th.BuyIn? then
      var (s', pc') := AdvanceBuyIn(s, th.room, th.player, th.pc, env);
      (s', th.(pc := pc'))
    else AdvanceSweep(s, th, env)
  }

  datatype World = World(shared: Shared, threads: map<ThreadId, Thread>)

  datatype Action =
    | StartBuyIn(t: ThreadId, room: RoomId, player: PlayerId)
    | StartSweep(t: ThreadId, due: seq<FeeKey>)
    | Advance(t: ThreadId, env: Env)
    | Crash(t: ThreadId)
    | Reap(slot: Slot)

  predicate Listed(s: Shared, due: seq<FeeKey>) {
    forall i :: 0 <= i < |due| ==> due[i] in s.rows && s.rows[due[i]].open && !s.rows[due[i]].resolved
  }

  function Snapshots(s: Shared, due: seq<FeeKey>): (q: seq<Due>)
    requires Listed(s, due)
    ensures |q| == |due|
    ensures forall i :: 0 <= i < |q| ==> q[i] == Due(due[i], s.rows[due[i]])
  {
    seq(|due|, i requires 0 <= i < |due| => Due(due[i], s.rows[due[i]]))
  }

  function Tick(s: Shared, d: nat): Shared { s.(now := s.now + d) }

  // One action. A buy-in starts only at a known room that charges a fee; the
  // store reaps a row only once its expiry plus the slack has passed.
  function Step(w: World, a: Action): World {
    match a
    case StartBuyIn(t, room, player) =>
      if t in w.threads || room !in w.shared.rooms || w.shared.rooms[room].fee == 0 then w
      else w.(threads := w.threads[t := BuyIn(room, player, Load)])
    case StartSweep(t, due) =>
      if t in w.threads || !Listed(w.shared, due) then w
      else w.(threads := w.threads[t := Sweep(Snapshots(w.shared, due))])
    case Advance(t, env) =>
      if t !in w.threads || (w.threads[t].BuyIn? && w.threads[t].room !in w.shared.rooms) then w
      else
        var (s, th) := AdvanceThread(Tick(w.shared, env.tick), w.threads[t], env);
        World(s, w.threads[t := th])
    case Crash(t) => w.(threads := w.threads - {t})
    case Reap(slot) =>
      if slot !in w.shared.ents || w.shared.ents[slot].expires + TTL_SLACK > w.shared.now then w
      else w.(shared := w.shared.(ents := w.shared.ents - {slot}))
  }

  function Run(w: World, actions: seq<Action>): World
    decreases |actions|
  {
    if actions == [] then w else Step(Run(w, actions[..|actions| - 1]), actions[|actions| - 1])
  }

  // One buy-in on its own: its steps i up to j, with the outside's answers.
  function Solo(s: Shared, room: RoomId, player: PlayerId, pc: Pc, env: nat -> Env, i: nat, j: nat): (next: (Shared, Pc))
    requires room in s.rooms && i <= j
    ensures next.0.rooms == s.rooms
    decreases j
  {
    if i == j then (s, pc)
    else
      var x := Solo(s, room, player, pc, env, i, j - 1);
      AdvanceBuyIn(Tick(x.0, env(j - 1).tick), room, player, x.1, env(j - 1))
  }

  lemma SoloNext(s: Shared, room: RoomId, player: PlayerId, pc: Pc, env: nat -> Env, i: nat, j: nat)
    requires room in s.rooms && i <= j
    ensures var x := Solo(s, room, player, pc, env, i, j);
      Solo(s, room, player, pc, env, i, j + 1) == AdvanceBuyIn(Tick(x.0, env(j).tick), room, player, x.1, env(j))
  {
    hide AdvanceBuyIn;
  }

  lemma {:induction false} SoloSplit(s: Shared, room: RoomId, player: PlayerId, pc: Pc, env: nat -> Env, i: nat, m: nat, j: nat)
    requires room in s.rooms && i <= m <= j
    ensures var x := Solo(s, room, player, pc, env, i, m);
      Solo(s, room, player, pc, env, i, j) == Solo(x.0, room, player, x.1, env, m, j)
    decreases j
  {
    hide AdvanceBuyIn;
    if m < j { SoloSplit(s, room, player, pc, env, i, m, j - 1); }
  }

  function Advances(t: ThreadId, env: nat -> Env, i: nat, j: nat): (actions: seq<Action>)
    requires i <= j
    ensures |actions| == j - i
  {
    seq(j - i, n requires 0 <= n => Advance(t, env(i + n)))
  }

  lemma StepAdvances(w: World, t: ThreadId, env: Env)
    requires t in w.threads && w.threads[t].BuyIn? && w.threads[t].room in w.shared.rooms
    ensures var th := w.threads[t];
      var x := AdvanceBuyIn(Tick(w.shared, env.tick), th.room, th.player, th.pc, env);
      Step(w, Advance(t, env)) == World(x.0, w.threads[t := BuyIn(th.room, th.player, x.1)])
  {
    hide AdvanceBuyIn;
  }

  lemma RunLast(w: World, actions: seq<Action>)
    requires actions != []
    ensures Run(w, actions) == Step(Run(w, actions[..|actions| - 1]), actions[|actions| - 1])
  {
    hide Step;
  }

  lemma NoSteps(w: World, room: RoomId, player: PlayerId, pc: Pc, env: nat -> Env, i: nat)
    requires room in w.shared.rooms
    ensures Run(w, []) == w && Solo(w.shared, room, player, pc, env, i, i) == (w.shared, pc)
  {
  }

  // A call on its own is a run of the machine.
  lemma {:induction false} SoloIsRun(w: World, t: ThreadId, env: nat -> Env, i: nat, j: nat)
    requires t in w.threads && w.threads[t].BuyIn? && w.threads[t].room in w.shared.rooms && i <= j
    ensures var th := w.threads[t];
      var x := Solo(w.shared, th.room, th.player, th.pc, env, i, j);
      var w' := Run(w, Advances(t, env, i, j));
      w'.shared == x.0 && t in w'.threads && w'.threads[t] == BuyIn(th.room, th.player, x.1)
    decreases j
  {
    hide Step, AdvanceBuyIn, Run, Solo;
    var th := w.threads[t];
    if i == j {
      NoSteps(w, th.room, th.player, th.pc, env, i);
    } else {
      SoloIsRun(w, t, env, i, j - 1);
      assert Advances(t, env, i, j)[..j - i - 1] == Advances(t, env, i, j - 1);
      RunLast(w, Advances(t, env, i, j));
      SoloNext(w.shared, th.room, th.player, th.pc, env, i, j - 1);
      StepAdvances(Run(w, Advances(t, env, i, j - 1)), t, env(j - 1));
    }
  }
}
