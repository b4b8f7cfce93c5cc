// No unpaid admission, one charge per reservation, and what claims and rebinds
// add up to, over every run of the entry-fee machine.
module EntryFeeSafety {
  import opened Sums
  import opened Replies
  import opened EntryFee

  // ---------- Invariants ----------

  ghost predicate EntOk(s: Shared, e: Ent) {
    e.slot.origin in s.rooms && e.tier == s.rooms[e.slot.origin].tier && e.fee == s.rooms[e.slot.origin].fee && e.fee > 0
  }

  ghost predicate FeeOf(s: Shared, k: FeeKey, amount: nat) {
    k.slot.origin in s.rooms && amount == s.rooms[k.slot.origin].fee
  }

  ghost predicate SharedOk(s: Shared) {
    && (forall x :: x in s.ents ==> s.ents[x].slot == x && EntOk(s, s.ents[x]))
    && (forall k :: k in s.rows ==> FeeOf(s, k, s.rows[k].amount) && (s.rows[k].resolved ==> k in s.ledger))
    && (forall k :: k in s.ledger ==> FeeOf(s, k, s.ledger[k]))
  }

  // A reservation this call holds: the player's, unexpired when read.
  ghost predicate Held(s: Shared, player: PlayerId, e: Ent, readAt: Time) {
    EntOk(s, e) && e.slot.player == player && e.expires > readAt
  }

  // Why it covers this table: bound here, claimed here, or moved here by a rebind.
  ghost predicate Covers(s: Shared, room: RoomId, e: Ent)
    requires room in s.rooms
  {
    e.tier == s.rooms[room].tier &&
    (e.bound == room || e.slot.origin == room || Moved(e.slot, e.bound, room) in s.log)
  }

  ghost predicate Good(s: Shared, room: RoomId, player: PlayerId, e: Ent, readAt: Time)
    requires room in s.rooms
  {
    Held(s, player, e, readAt) && Covers(s, room, e)
  }

  ghost predicate AllHeld(s: Shared, player: PlayerId, ents: seq<Ent>, readAt: Time) {
    forall i :: 0 <= i < |ents| ==> Held(s, player, ents[i], readAt)
  }

  ghost predicate PcOk(s: Shared, room: RoomId, player: PlayerId, pc: Pc) {
    room in s.rooms && s.rooms[room].fee > 0 &&
    match pc
    case Load => true
    case Scan(rest, readAt) => AllHeld(s, player, rest, readAt)
    case Rebinding(e, rest, readAt) =>
      Held(s, player, e, readAt) && e.tier == s.rooms[room].tier && AllHeld(s, player, rest, readAt)
    case Claiming(e, readAt) => Good(s, room, player, e, readAt) && e.slot.origin == room == e.bound
    case Reload => true
    case Confirm(e, readAt) => Good(s, room, player, e, readAt)
    case Record(e, readAt) => Good(s, room, player, e, readAt)
    case Charging(e, readAt) => Good(s, room, player, e, readAt) && KeyOf(e) in s.rows
    case Resolve(e, readAt) => Good(s, room, player, e, readAt) && KeyOf(e) in s.ledger
    case Admitted(e, readAt) => Good(s, room, player, e, readAt) && KeyOf(e) in s.ledger
    case Failed => true
  }

  ghost predicate QueueOk(s: Shared, q: seq<Due>) {
    forall i :: 0 <= i < |q| ==> q[i].key in s.rows && q[i].row.amount == s.rows[q[i].key].amount
  }

  ghost predicate ThreadOk(s: Shared, th: Thread) {
    match th
    case BuyIn(room, player, pc) => PcOk(s, room, player, pc)
    case Sweep(q) => QueueOk(s, q)
    case SweepFailed(q) => QueueOk(s, q)
    case SweepResolve(q) => QueueOk(s, q) && (q != [] ==> q[0].key in s.ledger)
  }

  ghost predicate Inv(w: World) {
    SharedOk(w.shared) && forall t :: t in w.threads ==> ThreadOk(w.shared, w.threads[t])
  }

  ghost predicate Initial(w: World) {
    w.threads == map[] && w.shared.ents == map[] && w.shared.rows == map[] && w.shared.ledger == map[] && w.shared.log == []
  }

  ghost predicate Grows(s: Shared, s': Shared) {
    && s'.rooms == s.rooms
    && (forall k :: k in s.rows ==> k in s'.rows && s'.rows[k].amount == s.rows[k].amount)
    && (forall k :: k in s.ledger ==> k in s'.ledger && s'.ledger[k] == s.ledger[k])
    && s.log <= s'.log
    && s.now <= s'.now
  }

  lemma ThreadStable(s: Shared, s': Shared, th: Thread)
    requires Grows(s, s') && ThreadOk(s, th)
    ensures ThreadOk(s', th)
  {
    assert forall x :: x in s.log ==> x in s'.log;
  }

  // What one step of a buy-in must hand on.
  ghost predicate Kept(s: Shared, room: RoomId, player: PlayerId, next: (Shared, Pc)) {
    SharedOk(next.0) && PcOk(next.0, room, player, next.1) && Grows(s, next.0)
  }

  lemma ActiveHeld(s: Shared, player: PlayerId, page: seq<RoomId>)
    requires SharedOk(s)
    ensures AllHeld(s, player, Active(s, player, page), s.now)
  {
    var out := Active(s, player, page);
    forall i | 0 <= i < |out| ensures Held(s, player, out[i], s.now) { assert out[i] in out; }
  }

  lemma ReadKeepsOk(s: Shared, room: RoomId, player: PlayerId, pc: Pc, env: Env)
    requires SharedOk(s) && PcOk(s, room, player, pc) && (pc.Load? || pc.Reload?)
    ensures Kept(s, room, player, AdvanceBuyIn(s, room, player, pc, env))
  {
    ActiveHeld(s, player, env.page);
  }

  lemma EntWriteKeepsOk(s: Shared, s': Shared, x: Slot, event: Event)
    requires SharedOk(s) && x in s'.ents && s'.ents[x].slot == x && EntOk(s, s'.ents[x])
    requires s' == s.(ents := s.ents[x := s'.ents[x]], log := s.log + [event])
    ensures SharedOk(s') && Grows(s, s') && event in s'.log
  {
    assert s'.log[|s.log|] == event;
  }

  lemma ScanKeepsOk(s: Shared, room: RoomId, player: PlayerId, pc: Pc, env: Env)
    requires SharedOk(s) && PcOk(s, room, player, pc) && (pc.Scan? || pc.Rebinding?)
    ensures Kept(s, room, player, AdvanceBuyIn(s, room, player, pc, env))
  {
    if pc.Scan? {
      if pc.rest != [] { assert Held(s, player, pc.rest[0], pc.readAt); }
    } else if CanRebind(s, pc.e.slot, pc.e.bound) {
      var s' := Rebind(s, pc.e.slot, pc.e.bound, room);
      EntWriteKeepsOk(s, s', pc.e.slot, Moved(pc.e.slot, pc.e.bound, room));
    }
  }

  lemma ClaimKeepsOk(s: Shared, room: RoomId, player: PlayerId, pc: Pc, env: Env)
    requires SharedOk(s) && PcOk(s, room, player, pc) && pc.Claiming?
    ensures Kept(s, room, player, AdvanceBuyIn(s, room, player, pc, env))
  {
    EntWriteKeepsOk(s, Claim(s, pc.e, pc.readAt), pc.e.slot, Claimed(pc.e.slot, pc.readAt, s.now));
  }

  lemma ChargeKeepsOk(s: Shared, k: FeeKey, amount: nat)
    requires SharedOk(s) && FeeOf(s, k, amount)
    ensures SharedOk(Charge(s, k, amount)) && Grows(s, Charge(s, k, amount))
  {
  }

  lemma RowWriteKeepsOk(s: Shared, s': Shared, k: FeeKey)
    requires SharedOk(s) && k in s'.rows && s' == s.(rows := s.rows[k := s'.rows[k]])
    requires FeeOf(s, k, s'.rows[k].amount) && (s'.rows[k].resolved ==> k in s.ledger)
    ensures SharedOk(s') && Grows(s, s')
  {
  }

  lemma RecordKeepsOk(s: Shared, room: RoomId, player: PlayerId, pc: Pc, env: Env)
    requires SharedOk(s) && PcOk(s, room, player, pc) && (pc.Confirm? || pc.Record?)
    ensures Kept(s, room, player, AdvanceBuyIn(s, room, player, pc, env))
  {
    if pc.Record? && KeyOf(pc.e) !in s.rows { RowWriteKeepsOk(s, RecordFee(s, pc.e), KeyOf(pc.e)); }
  }

  lemma PayKeepsOk(s: Shared, room: RoomId, player: PlayerId, pc: Pc, env: Env)
    requires SharedOk(s) && PcOk(s, room, player, pc) && (pc.Charging? || pc.Resolve?)
    ensures Kept(s, room, player, AdvanceBuyIn(s, room, player, pc, env))
  {
    var k := KeyOf(pc.e);
    if pc.Charging? { ChargeKeepsOk(s, k, pc.e.fee); }
    else if k in s.rows { RowWriteKeepsOk(s, ResolveFee(s, k), k); }
  }

  lemma BuyInKeepsOk(s: Shared, room: RoomId, player: PlayerId, pc: Pc, env: Env)
    requires SharedOk(s) && PcOk(s, room, player, pc)
    ensures Kept(s, room, player, AdvanceBuyIn(s, room, player, pc, env))
  {
    if pc.Load? || pc.Reload? {
      ReadKeepsOk(s, room, player, pc, env);
    } else if pc.Scan? || pc.Rebinding? {
      ScanKeepsOk(s, room, player, pc, env);
    } else if pc.Claiming? {
      ClaimKeepsOk(s, room, player, pc, env);
    } else if pc.Confirm? || pc.Record? {
      RecordKeepsOk(s, room, player, pc, env);
    } else if !pc.Admitted? && !pc.Failed? {
      PayKeepsOk(s, room, player, pc, env);
    }
  }

  lemma QueueStable(s: Shared, s': Shared, q: seq<Due>)
    requires Grows(s, s') && QueueOk(s, q)
    ensures QueueOk(s', q)
  {
  }

  lemma SweepKeepsOk(s: Shared, th: Thread, env: Env)
    requires SharedOk(s) && ThreadOk(s, th) && !th.BuyIn?
    ensures var (s', th') := AdvanceSweep(s, th, env); SharedOk(s') && ThreadOk(s', th') && Grows(s, s')
  {
    if th.queue != [] {
      var e := th.queue[0];
      assert e.key in s.rows;
      match th {
        case Sweep(_) => ChargeKeepsOk(s, e.key, e.row.amount);
        case SweepFailed(_) => RowWriteKeepsOk(s, FailFee(s, e.key, e.row), e.key);
        case SweepResolve(_) => RowWriteKeepsOk(s, ResolveFee(s, e.key), e.key);
      }
      var s' := AdvanceSweep(s, th, env).0;
      QueueStable(s, s', th.queue);
      QueueStable(s, s', th.queue[1..]);
    }
  }

  lemma AdvanceKeepsOk(s: Shared, th: Thread, env: Env)
    requires SharedOk(s) && ThreadOk(s, th)
    ensures var (s', th') := AdvanceThread(s, th, env); SharedOk(s') && ThreadOk(s', th') && Grows(s, s')
  {
    if th.BuyIn? { BuyInKeepsOk(s, th.room, th.player, th.pc, env); } else { SweepKeepsOk(s, th, env); }
  }

  lemma ThreadsStable(s: Shared, s': Shared, threads: map<ThreadId, Thread>)
    requires Grows(s, s') && forall t :: t in threads ==> ThreadOk(s, threads[t])
    ensures forall t :: t in threads ==> ThreadOk(s', threads[t])
  {
    forall t | t in threads ensures ThreadOk(s', threads[t]) { ThreadStable(s, s', threads[t]); }
  }

  lemma AdvanceStepKeepsInv(w: World, t: ThreadId, env: Env)
    requires Inv(w) && t in w.threads
    ensures Inv(Step(w, Advance(t, env))) && Grows(w.shared, Step(w, Advance(t, env)).shared)
  {
    var s := Tick(w.shared, env.tick);
    ThreadStable(w.shared, s, w.threads[t]);
    AdvanceKeepsOk(s, w.threads[t], env);
    var w' := Step(w, Advance(t, env));
    assert Grows(w.shared, w'.shared);
    ThreadsStable(w.shared, w'.shared, w.threads);
  }

  lemma StepKeepsInv(w: World, a: Action)
    requires Inv(w)
    ensures Inv(Step(w, a)) && Grows(w.shared, Step(w, a).shared)
  {
    if a.Advance? && a.t in w.threads {
      AdvanceStepKeepsInv(w, a.t, a.env);
    } else {
      ThreadsStable(w.shared, Step(w, a).shared, w.threads);
    }
  }

  lemma {:induction false} RunKeepsInv(w: World, actions: seq<Action>)
    requires Inv(w)
    ensures Inv(Run(w, actions)) && Grows(w.shared, Run(w, actions).shared)
    decreases |actions|
  {
    if actions != [] {
      RunKeepsInv(w, actions[..|actions| - 1]);
      StepKeepsInv(Run(w, actions[..|actions| - 1]), actions[|actions| - 1]);
    }
  }

  // Whoever is admitted holds a reservation of theirs in the room's tier that
  // was unexpired when read and covers the table, and its fee is in the ledger.
  lemma NoUnpaidAdmission(w: World, actions: seq<Action>, t: ThreadId)
    requires Initial(w)
    ensures var w' := Run(w, actions);
      t in w'.threads && w'.threads[t].BuyIn? && w'.threads[t].pc.Admitted? ==>
        var th := w'.threads[t];
        var e := th.pc.e;
        && th.room in w'.shared.rooms && Good(w'.shared, th.room, th.player, e, th.pc.readAt)
        && KeyOf(e) in w'.shared.ledger && w'.shared.ledger[KeyOf(e)] == e.fee
  {
    RunKeepsInv(w, actions);
  }

  // A fee is charged once per reservation, at its own amount, and a recovery
  // row is resolved only after its charge.
  lemma ChargedOnce(w: World, first: seq<Action>, more: seq<Action>, k: FeeKey)
    requires Initial(w)
    ensures var s, s' := Run(w, first).shared, Run(Run(w, first), more).shared;
      && (k in s.ledger ==> k in s'.ledger && s'.ledger[k] == s.ledger[k] && FeeOf(s, k, s.ledger[k]))
      && (k in s.rows && s.rows[k].resolved ==> k in s.ledger)
  {
    RunKeepsInv(w, first);
    RunKeepsInv(Run(w, first), more);
  }
}
