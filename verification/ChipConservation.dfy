// Conservation and settlement safety over every run of the chip movement
// machine.
module ChipConservation {
  import opened Sums
  import opened Replies
  import opened ChipMovement

  // ---------- Where the chips are ----------

  ghost function Deltas(s: Shared): map<Key, int> { map k | k in s.ledger :: s.ledger[k].delta }

  ghost function Stacks(s: Shared): map<Seat, int> { map x | x in s.seats :: s.seats[x] }

  // A debit in the ledger that no seat and no refund answers yet.
  ghost predicate InFlight(s: Shared, k: Key) {
    k.BuyInKey? && k in s.ledger && k !in s.joined && RefundOf(k) !in s.ledger
  }

  ghost function Floating(s: Shared): map<Key, int> {
    map k | k in s.ledger && InFlight(s, k) :: 0 - s.ledger[k].delta
  }

  // What the pending rows still owe.
  ghost function Owed(s: Shared): map<Key, int> {
    map k | k in s.rows && k !in s.ledger :: s.rows[k].amount
  }

  ghost function Value(s: Shared): int {
    Total(Deltas(s)) + Total(Stacks(s)) + Total(Floating(s)) + Total(Owed(s)) + s.raked
  }

  // ---------- Invariants ----------

  ghost predicate RowMatches(s: Shared, k: Key, player: PlayerId, amount: int) {
    k in s.rows && s.rows[k].player == player && s.rows[k].amount == amount
  }

  ghost predicate LedgerOk(s: Shared, k: Key)
    requires k in s.ledger
  {
    match k
    case BuyInKey(_, p, _) => s.ledger[k].player == p && s.ledger[k].delta < 0
    case RefundKey(r, p, n) => BuyInKey(r, p, n) in s.ledger && s.ledger[k].player == p
    case CashOutKey(_, _, _) => RowMatches(s, k, s.ledger[k].player, s.ledger[k].delta) && s.ledger[k].delta > 0
    case SystemLeaveKey(_, _, _, _) => RowMatches(s, k, s.ledger[k].player, s.ledger[k].delta) && s.ledger[k].delta > 0
  }

  ghost predicate RowOk(s: Shared, k: Key)
    requires k in s.rows
  {
    IsSettlement(k) && s.rows[k].player == k.player &&
    (s.rows[k].resolved && s.rows[k].amount > 0 ==> k in s.ledger)
  }

  ghost predicate SharedOk(s: Shared) {
    && (forall k :: k in s.ledger ==> LedgerOk(s, k))
    && (forall k :: k in s.rows ==> RowOk(s, k))
    && (forall k :: k in s.joined ==> k.BuyInKey? && k in s.ledger)
  }

  ghost predicate DueOk(s: Shared, e: Due) { RowMatches(s, e.key, e.row.player, e.row.amount) }

  ghost predicate QueueOk(s: Shared, q: seq<Due>) { forall i :: 0 <= i < |q| ==> DueOk(s, q[i]) }

  ghost predicate PcOk(s: Shared, pc: Pc) {
    WellKeyed(pc) &&
    match pc
    case BuyInJoin(k, _) => k in s.ledger
    case BuyInRefund(k, _) => k in s.ledger
    case SettleRecord(k, stack) => RowMatches(s, k, k.player, stack)
    case SettleCredit(k, stack) => RowMatches(s, k, k.player, stack)
    case SettleResolve(k) => k in s.rows && (s.rows[k].amount > 0 ==> k in s.ledger)
    case Sweep(q) => QueueOk(s, q)
    case SweepFailed(q) => QueueOk(s, q)
    case SweepResolve(q) => QueueOk(s, q) && (q == [] || q[0].key in s.ledger)
    case _ => true
  }

  ghost predicate Inv(w: World) {
    SharedOk(w.shared) && forall t :: t in w.threads ==> PcOk(w.shared, w.threads[t])
  }

  // The ledger and the amounts on the rows only ever grow.
  ghost predicate Grows(s: Shared, s': Shared) {
    && (forall k :: k in s.ledger ==> k in s'.ledger && s'.ledger[k] == s.ledger[k])
    && (forall k :: k in s.rows ==> RowMatches(s', k, s.rows[k].player, s.rows[k].amount))
    && s.joined <= s'.joined
  }

  lemma PcStable(s: Shared, s': Shared, pc: Pc)
    requires Grows(s, s') && PcOk(s, pc)
    ensures PcOk(s', pc)
  {
  }

  // A posting under a buy-in or refund key, and a committed join.
  lemma BuyInPostKeepsOk(s: Shared, s': Shared, k: Key, amount: nat)
    requires SharedOk(s) && k.BuyInKey? && amount > 0
    requires s' == DebitBuyIn(s, k, amount) || (k in s.ledger && s' == CreditRefund(s, k, amount))
    ensures SharedOk(s') && Grows(s, s')
  {
    forall j | j in s'.ledger ensures LedgerOk(s', j) { if j in s.ledger { assert LedgerOk(s, j); } }
    forall j | j in s'.rows ensures RowOk(s', j) { assert RowOk(s, j); }
  }

  lemma JoinKeepsOk(s: Shared, k: Key, amount: nat)
    requires SharedOk(s) && k.BuyInKey? && k in s.ledger
    ensures SharedOk(JoinSeat(s, k, amount)) && Grows(s, JoinSeat(s, k, amount))
  {
    var s' := JoinSeat(s, k, amount);
    forall j | j in s'.ledger ensures LedgerOk(s', j) { assert LedgerOk(s, j); }
    forall j | j in s'.rows ensures RowOk(s', j) { assert RowOk(s, j); }
  }

  lemma BuyInKeepsOk(s: Shared, pc: Pc, reply: Reply)
    requires SharedOk(s) && PcOk(s, pc)
    requires pc.BuyInCheck? || pc.BuyInDebit? || pc.BuyInJoin? || pc.BuyInRefund?
    ensures Kept(s, AdvanceBuyIn(s, pc, reply))
  {
    match pc
    case BuyInCheck(_, _) =>
    case BuyInDebit(k, amount) => BuyInPostKeepsOk(s, DebitBuyIn(s, k, amount), k, amount);
    case BuyInJoin(k, amount) => JoinKeepsOk(s, k, amount);
    case BuyInRefund(k, amount) => BuyInPostKeepsOk(s, CreditRefund(s, k, amount), k, amount);
  }

  lemma LeaveKeepsOk(s: Shared, k: Key)
    requires SharedOk(s) && IsSettlement(k) && CanLeave(s, k)
    ensures var s' := Leave(s, k);
      SharedOk(s') && Grows(s, s') && RowMatches(s', k, k.player, s.seats[SeatOf(k)])
  {
    var s' := Leave(s, k);
    forall j | j in s'.ledger ensures LedgerOk(s', j) { assert LedgerOk(s, j); }
    forall j | j in s'.rows ensures RowOk(s', j) { if j != k { assert RowOk(s, j); } }
  }

  lemma CreditKeepsOk(s: Shared, k: Key, player: PlayerId, amount: nat)
    requires SharedOk(s) && IsSettlement(k) && RowMatches(s, k, player, amount)
    ensures var s' := CreditRow(s, k, player, amount);
      SharedOk(s') && Grows(s, s') && s'.rows == s.rows && (amount > 0 ==> k in s'.ledger)
  {
    var s' := CreditRow(s, k, player, amount);
    forall j | j in s'.ledger ensures LedgerOk(s', j) { if j in s.ledger { assert LedgerOk(s, j); } }
    forall j | j in s'.rows ensures RowOk(s', j) { assert RowOk(s, j); }
  }

  // Resolving, or counting a failed attempt, changes neither player nor amount.
  lemma RowUpdateKeepsOk(s: Shared, s': Shared, k: Key)
    requires SharedOk(s) && k in s.rows
    requires (s' == s.(rows := ResolveRow(s.rows, k)) && (s.rows[k].amount > 0 ==> k in s.ledger))
          || (exists seen :: s' == s.(rows := FailRow(s.rows, k, seen)))
    ensures SharedOk(s') && Grows(s, s')
  {
    forall j | j in s'.ledger ensures LedgerOk(s', j) { assert LedgerOk(s, j); }
    forall j | j in s'.rows ensures RowOk(s', j) { assert RowOk(s, j); }
  }

  // What one step must hand on.
  ghost predicate Kept(s: Shared, next: (Shared, Pc)) {
    SharedOk(next.0) && PcOk(next.0, next.1) && Grows(s, next.0)
  }

  lemma LeavingKeepsOk(s: Shared, pc: Pc, reply: Reply)
    requires SharedOk(s) && PcOk(s, pc) && pc.Leaving?
    ensures Kept(s, AdvanceSettle(s, pc, reply))
  {
    if CanLeave(s, pc.key) { LeaveKeepsOk(s, pc.key); }
  }

  lemma SettleKeepsOk(s: Shared, pc: Pc, reply: Reply)
    requires SharedOk(s) && PcOk(s, pc)
    requires pc.SettleRecord? || pc.SettleCredit? || pc.SettleResolve?
    ensures Kept(s, AdvanceSettle(s, pc, reply))
  {
    if pc.SettleCredit? { CreditKeepsOk(s, pc.key, pc.key.player, pc.stack); }
    if pc.SettleResolve? { RowUpdateKeepsOk(s, s.(rows := ResolveRow(s.rows, pc.key)), pc.key); }
  }

  lemma SweepKeepsOk(s: Shared, pc: Pc, reply: Reply)
    requires SharedOk(s) && PcOk(s, pc)
    requires pc.Sweep? || pc.SweepFailed? || pc.SweepResolve?
    ensures Kept(s, AdvanceSweep(s, pc, reply))
  {
    hide SharedOk, Grows, QueueOk, CreditRow, FailRow, ResolveRow;
    if pc.queue == [] {
      SameGrows(s);
    } else {
      var next := AdvanceSweep(s, pc, reply);
      SweepWrites(s, pc, reply);
      QueueStable(s, next.0, pc.queue);
      QueueTail(next.0, pc.queue);
    }
  }

  lemma SweepWrites(s: Shared, pc: Pc, reply: Reply)
    requires SharedOk(s) && PcOk(s, pc) && (pc.Sweep? || pc.SweepFailed? || pc.SweepResolve?) && pc.queue != []
    ensures var s' := AdvanceSweep(s, pc, reply).0; SharedOk(s') && Grows(s, s')
    ensures AdvanceSweep(s, pc, reply).1.SweepResolve? ==> pc.queue[0].key in AdvanceSweep(s, pc, reply).0.ledger
  {
    var e := pc.queue[0];
    assert DueOk(s, e) && RowOk(s, e.key);
    SameGrows(s);
    match pc {
      case Sweep(_) => CreditKeepsOk(s, e.key, e.row.player, e.row.amount);
      case SweepFailed(_) => RowUpdateKeepsOk(s, s.(rows := FailRow(s.rows, e.key, e.row)), e.key);
      case SweepResolve(_) => RowUpdateKeepsOk(s, s.(rows := ResolveRow(s.rows, e.key)), e.key);
    }
  }

  lemma SameGrows(s: Shared)
    ensures Grows(s, s)
  {
  }

  lemma QueueTail(s: Shared, q: seq<Due>)
    requires QueueOk(s, q) && q != []
    ensures QueueOk(s, q[1..])
  {
  }

  lemma QueueStable(s: Shared, s': Shared, q: seq<Due>)
    requires Grows(s, s') && QueueOk(s, q)
    ensures QueueOk(s', q)
  {
    forall i | 0 <= i < |q| ensures DueOk(s', q[i]) { assert DueOk(s, q[i]); }
  }

  lemma AdvanceKeepsOk(s: Shared, pc: Pc, reply: Reply)
    requires SharedOk(s) && PcOk(s, pc)
    ensures Kept(s, AdvancePc(s, pc, reply))
  {
    if pc.BuyInCheck? || pc.BuyInDebit? || pc.BuyInJoin? || pc.BuyInRefund? {
      BuyInKeepsOk(s, pc, reply);
    } else if pc.Leaving? {
      LeavingKeepsOk(s, pc, reply);
    } else if pc.SettleRecord? || pc.SettleCredit? || pc.SettleResolve? {
      SettleKeepsOk(s, pc, reply);
    } else if !pc.Done? {
      SweepKeepsOk(s, pc, reply);
    }
  }

  lemma StepKeepsInv(w: World, a: Action)
    requires Inv(w)
    ensures Inv(Step(w, a)) && Grows(w.shared, Step(w, a).shared)
  {
    var w' := Step(w, a);
    if a.Advance? && a.t in w.threads && WellKeyed(w.threads[a.t]) {
      AdvanceKeepsOk(w.shared, w.threads[a.t], a.reply);
    }
    forall t | t in w'.threads
      ensures PcOk(w'.shared, w'.threads[t])
    {
      if t in w.threads && w'.threads[t] == w.threads[t] {
        PcStable(w.shared, w'.shared, w.threads[t]);
      }
    }
  }

  ghost predicate Initial(w: World) {
    w.threads == map[] && w.started == {} && w.shared.ledger == map[] && w.shared.rows == map[] && w.shared.joined == {}
  }

  lemma {:induction false} RunKeepsInv(w: World, actions: seq<Action>)
    requires Inv(w)
    ensures Inv(Run(w, actions)) && Grows(w.shared, Run(w, actions).shared)
    decreases |actions|
  {
    if actions != [] {
      RunKeepsInv(w, actions[..|actions| - 1]);
      StepKeepsInv(Run(w, actions[..|actions| - 1]), actions[|actions| - 1]);
    }
  }

  // ---------- Conservation ----------

  // The chips a join or a refund answers when its key is in flight.
  ghost function Answered(s: Shared, k: Key): int { if k in Floating(s) then Floating(s)[k] else 0 }

  ghost predicate JoinCommits(s: Shared, pc: Pc, reply: Reply) {
    pc.BuyInJoin? && reply.Applied() && SeatFree(s.seats, SeatOf(pc.key))
  }

  ghost predicate RefundPosts(s: Shared, pc: Pc, reply: Reply) {
    pc.BuyInRefund? && pc.key.BuyInKey? && reply.Applied() && RefundOf(pc.key) !in s.ledger
  }

  // Chips that appear from nowhere in this step: what a join seats, or a refund
  // credits, beyond the debit it answers.
  ghost function Minted(s: Shared, pc: Pc, reply: Reply): int {
    if JoinCommits(s, pc, reply) || RefundPosts(s, pc, reply) then pc.amount - Answered(s, pc.key) else 0
  }

  lemma KeysApart(s: Shared, k: Key)
    requires SharedOk(s)
    ensures k.BuyInKey? ==> k !in s.rows && RefundOf(k) !in s.rows
    ensures k.BuyInKey? ==> (RefundOf(k) in s.ledger ==> k in s.ledger) && (k in s.joined ==> k in s.ledger)
    ensures IsSettlement(k) && k !in s.rows ==> k !in s.ledger
  {
    if k in s.ledger { assert LedgerOk(s, k); }
  }

  lemma DebitConserves(s: Shared, k: Key, amount: nat)
    requires k.BuyInKey? && k !in s.rows
    requires k !in s.ledger ==> k !in s.joined && RefundOf(k) !in s.ledger
    ensures Value(DebitBuyIn(s, k, amount)) == Value(s)
  {
    var s' := DebitBuyIn(s, k, amount);
    if k !in s.ledger {
      assert Deltas(s') == Deltas(s)[k := 0 - amount];
      assert Floating(s') == Floating(s)[k := amount];
      assert Owed(s') == Owed(s);
      TotalPut(Deltas(s), k, 0 - amount);
      TotalPut(Floating(s), k, amount);
    }
  }

  lemma JoinMints(s: Shared, k: Key, amount: nat)
    requires k.BuyInKey? && SeatFree(s.seats, SeatOf(k))
    ensures Value(JoinSeat(s, k, amount)) == Value(s) + amount - Answered(s, k)
  {
    var s' := JoinSeat(s, k, amount);
    assert Stacks(s') == Stacks(s)[SeatOf(k) := amount];
    assert Floating(s') == Floating(s) - {k};
    assert Deltas(s') == Deltas(s) && Owed(s') == Owed(s);
    TotalPut(Stacks(s), SeatOf(k), amount);
    if k in Floating(s) { TotalRemove(Floating(s), k); } else { assert Floating(s) - {k} == Floating(s); }
  }

  lemma RefundMints(s: Shared, k: Key, amount: nat)
    requires k.BuyInKey? && k in s.ledger && RefundOf(k) !in s.ledger && RefundOf(k) !in s.rows
    ensures Value(CreditRefund(s, k, amount)) == Value(s) + amount - Answered(s, k)
  {
    var s' := CreditRefund(s, k, amount);
    var r := RefundOf(k);
    assert Deltas(s') == Deltas(s)[r := amount];
    assert Floating(s') == Floating(s) - {k};
    assert Owed(s') == Owed(s);
    TotalPut(Deltas(s), r, amount);
    if k in Floating(s) { TotalRemove(Floating(s), k); } else { assert Floating(s) - {k} == Floating(s); }
  }

  lemma LeaveConserves(s: Shared, k: Key)
    requires IsSettlement(k) && CanLeave(s, k) && k !in s.ledger
    ensures Value(Leave(s, k)) == Value(s)
  {
    var s' := Leave(s, k);
    var stack := s.seats[SeatOf(k)];
    assert Stacks(s') == Stacks(s) - {SeatOf(k)};
    assert Owed(s') == Owed(s)[k := stack];
    assert Deltas(s') == Deltas(s) && Floating(s') == Floating(s);
    TotalRemove(Stacks(s), SeatOf(k));
    TotalPut(Owed(s), k, stack);
  }

  lemma CreditConserves(s: Shared, k: Key, player: PlayerId, amount: nat)
    requires IsSettlement(k) && RowMatches(s, k, player, amount)
    ensures Value(CreditRow(s, k, player, amount)) == Value(s)
  {
    var s' := CreditRow(s, k, player, amount);
    if amount > 0 && k !in s.ledger {
      assert Deltas(s') == Deltas(s)[k := amount];
      assert Owed(s') == Owed(s) - {k};
      assert Floating(s') == Floating(s);
      TotalPut(Deltas(s), k, amount);
      TotalRemove(Owed(s), k);
    }
  }

  lemma RowUpdateConserves(s: Shared, s': Shared)
    requires s'.ledger == s.ledger && s'.seats == s.seats && s'.joined == s.joined && s'.raked == s.raked
    requires s'.rows.Keys == s.rows.Keys && forall k :: k in s.rows ==> s'.rows[k].amount == s.rows[k].amount
    ensures Value(s') == Value(s)
  {
    assert Owed(s') == Owed(s) && Deltas(s') == Deltas(s) && Floating(s') == Floating(s) && Stacks(s') == Stacks(s);
  }

  lemma PlayConserves(s: Shared, loser: Seat, winner: Seat, amount: nat, rake: nat)
    requires Playable(s, loser, winner, amount, rake)
    ensures Value(PlayHand(s, loser, winner, amount, rake)) == Value(s)
  {
    var s' := PlayHand(s, loser, winner, amount, rake);
    var mid := Stacks(s)[loser := s.seats[loser] - amount];
    assert Stacks(s') == mid[winner := s.seats[winner] + amount - rake];
    assert Owed(s') == Owed(s) && Deltas(s') == Deltas(s) && Floating(s') == Floating(s);
    TotalPut(Stacks(s), loser, s.seats[loser] - amount);
    TotalPut(mid, winner, s.seats[winner] + amount - rake);
  }

  lemma BuyInValue(s: Shared, pc: Pc, reply: Reply)
    requires SharedOk(s) && PcOk(s, pc)
    requires pc.BuyInCheck? || pc.BuyInDebit? || pc.BuyInJoin? || pc.BuyInRefund?
    ensures Value(AdvanceBuyIn(s, pc, reply).0) == Value(s) + Minted(s, pc, reply)
  {
    KeysApart(s, pc.key);
    match pc
    case BuyInCheck(_, _) =>
    case BuyInDebit(k, amount) => DebitConserves(s, k, amount);
    case BuyInJoin(k, amount) => if JoinCommits(s, pc, reply) { JoinMints(s, k, amount); }
    case BuyInRefund(k, amount) => if RefundPosts(s, pc, reply) { RefundMints(s, k, amount); }
  }

  lemma SettleValue(s: Shared, pc: Pc, reply: Reply)
    requires SharedOk(s) && PcOk(s, pc)
    requires pc.Leaving? || pc.SettleRecord? || pc.SettleCredit? || pc.SettleResolve?
    ensures Value(AdvanceSettle(s, pc, reply).0) == Value(s)
  {
    KeysApart(s, pc.key);
    match pc
    case Leaving(k) => if CanLeave(s, k) { LeaveConserves(s, k); }
    case SettleRecord(k, stack) => RowUpdateConserves(s, AdvanceSettle(s, pc, reply).0);
    case SettleCredit(k, stack) => CreditConserves(s, k, k.player, stack);
    case SettleResolve(k) => RowUpdateConserves(s, AdvanceSettle(s, pc, reply).0);
  }

  lemma SweepValue(s: Shared, pc: Pc, reply: Reply)
    requires SharedOk(s) && PcOk(s, pc)
    requires pc.Sweep? || pc.SweepFailed? || pc.SweepResolve?
    ensures Value(AdvanceSweep(s, pc, reply).0) == Value(s)
  {
    if pc.queue != [] {
      var e := pc.queue[0];
      assert DueOk(s, e) && RowOk(s, e.key);
      if pc.Sweep? {
        CreditConserves(s, e.key, e.row.player, e.row.amount);
      } else {
        RowUpdateConserves(s, AdvanceSweep(s, pc, reply).0);
      }
    }
  }

  lemma AdvanceValue(s: Shared, pc: Pc, reply: Reply)
    requires SharedOk(s) && PcOk(s, pc)
    ensures Value(AdvancePc(s, pc, reply).0) == Value(s) + Minted(s, pc, reply)
  {
    if pc.BuyInCheck? || pc.BuyInDebit? || pc.BuyInJoin? || pc.BuyInRefund? {
      BuyInValue(s, pc, reply);
    } else if pc.Leaving? || pc.SettleRecord? || pc.SettleCredit? || pc.SettleResolve? {
      SettleValue(s, pc, reply);
    } else if !pc.Done? {
      SweepValue(s, pc, reply);
    }
  }

  ghost function MintedBy(w: World, a: Action): int {
    if a.Advance? && a.t in w.threads && WellKeyed(w.threads[a.t]) then Minted(w.shared, w.threads[a.t], a.reply) else 0
  }

  // The exact law: every action keeps the total, except for what a join or a
  // refund hands out beyond the debit it answers.
  lemma StepValue(w: World, a: Action)
    requires Inv(w)
    ensures Value(Step(w, a).shared) == Value(w.shared) + MintedBy(w, a)
    ensures Value(Step(w, a).shared) == Value(w.shared) <==>
      (a.Advance? && a.t in w.threads && WellKeyed(w.threads[a.t]) &&
       (JoinCommits(w.shared, w.threads[a.t], a.reply) || RefundPosts(w.shared, w.threads[a.t], a.reply)) ==>
       Answered(w.shared, w.threads[a.t].key) == w.threads[a.t].amount)
  {
    match a
    case Advance(t, reply) => if t in w.threads { AdvanceValue(w.shared, w.threads[t], reply); }
    case Play(l, x, amount, rake) => if Playable(w.shared, l, x, amount, rake) { PlayConserves(w.shared, l, x, amount, rake); }
    case _ =>
  }

  ghost function MintedDuring(w: World, actions: seq<Action>): int
    decreases |actions|
  {
    if actions == [] then 0
    else
      var before := actions[..|actions| - 1];
      MintedDuring(w, before) + MintedBy(Run(w, before), actions[|actions| - 1])
  }

  lemma {:induction false} RunValue(w: World, actions: seq<Action>)
    requires Inv(w)
    ensures Value(Run(w, actions).shared) == Value(w.shared) + MintedDuring(w, actions)
    decreases |actions|
  {
    if actions != [] {
      var before := actions[..|actions| - 1];
      RunKeepsInv(w, before);
      RunValue(w, before);
      StepValue(Run(w, before), actions[|actions| - 1]);
    }
  }

  // ---------- Each buy-in nonce used once ----------

  ghost predicate Fresh(w: World, a: Action) { a.StartBuyIn? ==> a.key !in w.started }

  ghost predicate FreshRun(w: World, actions: seq<Action>)
    decreases |actions|
  {
    actions == [] ||
    (FreshRun(w, actions[..|actions| - 1]) && Fresh(Run(w, actions[..|actions| - 1]), actions[|actions| - 1]))
  }

  predicate Buying(pc: Pc) { pc.BuyInCheck? || pc.BuyInDebit? || pc.BuyInJoin? || pc.BuyInRefund? }

  // A live buy-in owns its key: nothing moved yet, or exactly its own debit is
  // there, in flight until its join commits, and not refunded.
  ghost predicate Owns(s: Shared, pc: Pc)
    requires Buying(pc)
  {
    pc.key.BuyInKey? &&
    if pc.BuyInCheck? || pc.BuyInDebit? then pc.key !in s.ledger
    else
      && pc.key in s.ledger && s.ledger[pc.key].delta == 0 - pc.amount && RefundOf(pc.key) !in s.ledger
      && (pc.BuyInJoin? ==> pc.key !in s.joined)
  }

  // A refund posts for a buy-in whose join has committed.
  ghost predicate RefundsSeated(s: Shared, pc: Pc, reply: Reply) {
    pc.BuyInRefund? && reply.Applied() && pc.key in s.joined
  }

  ghost predicate OwnInv(w: World) {
    && (forall t :: t in w.threads && Buying(w.threads[t]) ==> w.threads[t].key in w.started && Owns(w.shared, w.threads[t]))
    && (forall t, u :: t in w.threads && u in w.threads && t != u && Buying(w.threads[t]) && Buying(w.threads[u])
          ==> w.threads[t].key != w.threads[u].key)
    && (forall k :: k in w.shared.ledger && k.BuyInKey? ==> k in w.started)
  }

  // What one thread's step may touch in the buy-in part of the state.
  ghost predicate TouchesOnly(s: Shared, s': Shared, k: Key) {
    && (forall j: Key :: j.BuyInKey? && j != k ==> (j in s'.ledger <==> j in s.ledger) && (j in s.ledger ==> s'.ledger[j] == s.ledger[j]))
    && (forall j: Key :: j.BuyInKey? && j != k ==> (RefundOf(j) in s'.ledger <==> RefundOf(j) in s.ledger))
    && (forall j: Key :: j != k ==> (j in s'.joined <==> j in s.joined))
  }

  lemma OwnAdvance(s: Shared, pc: Pc, reply: Reply)
    requires SharedOk(s) && PcOk(s, pc) && Buying(pc) && Owns(s, pc)
    ensures var (s', pc') := AdvancePc(s, pc, reply);
      TouchesOnly(s, s', pc.key) && (Buying(pc') ==> pc'.key == pc.key && Owns(s', pc'))
    ensures Minted(s, pc, reply) == if RefundsSeated(s, pc, reply) then pc.amount else 0
  {
    KeysApart(s, pc.key);
  }

  lemma SettleTouches(s: Shared, pc: Pc, reply: Reply, k: Key)
    requires PcOk(s, pc) && (pc.Leaving? || pc.SettleRecord? || pc.SettleCredit? || pc.SettleResolve?)
    ensures TouchesOnly(s, AdvanceSettle(s, pc, reply).0, k) && !Buying(AdvanceSettle(s, pc, reply).1)
  {
  }

  lemma CreditTouches(s: Shared, e: Due, k: Key)
    requires IsSettlement(e.key)
    ensures TouchesOnly(s, CreditRow(s, e.key, e.row.player, e.row.amount), k)
  {
  }

  lemma RowsTouchNothing(s: Shared, rows: map<Key, Row>, k: Key)
    ensures TouchesOnly(s, s.(rows := rows), k) && s.(rows := s.rows) == s
  {
  }

  lemma SweepTouches(s: Shared, pc: Pc, reply: Reply, k: Key)
    requires SharedOk(s) && PcOk(s, pc) && (pc.Sweep? || pc.SweepFailed? || pc.SweepResolve?)
    ensures TouchesOnly(s, AdvanceSweep(s, pc, reply).0, k) && !Buying(AdvanceSweep(s, pc, reply).1)
  {
    if pc.queue != [] { assert DueOk(s, pc.queue[0]) && RowOk(s, pc.queue[0].key); }
    hide TouchesOnly, SharedOk, CreditRow, FailRow, ResolveRow;
    RowsTouchNothing(s, s.rows, k);
    if pc.queue != [] {
      var e := pc.queue[0];
      CreditTouches(s, e, k);
      RowsTouchNothing(s, FailRow(s.rows, e.key, e.row), k);
      RowsTouchNothing(s, ResolveRow(s.rows, e.key), k);
    }
  }

  lemma OtherAdvance(s: Shared, pc: Pc, reply: Reply, k: Key)
    requires SharedOk(s) && PcOk(s, pc) && !Buying(pc)
    ensures TouchesOnly(s, AdvancePc(s, pc, reply).0, k) && !Buying(AdvancePc(s, pc, reply).1)
    ensures Minted(s, pc, reply) == 0
  {
    if pc.Leaving? || pc.SettleRecord? || pc.SettleCredit? || pc.SettleResolve? {
      SettleTouches(s, pc, reply, k);
    } else if !pc.Done? {
      SweepTouches(s, pc, reply, k);
    }
  }

  // The chips this step hands out twice: seated already, and now refunded too.
  ghost function PaidTwiceBy(w: World, a: Action): nat {
    if a.Advance? && a.t in w.threads && RefundsSeated(w.shared, w.threads[a.t], a.reply) then w.threads[a.t].amount else 0
  }

  ghost function PaidTwice(w: World, actions: seq<Action>): nat
    decreases |actions|
  {
    if actions == [] then 0
    else PaidTwice(w, actions[..|actions| - 1]) + PaidTwiceBy(Run(w, actions[..|actions| - 1]), actions[|actions| - 1])
  }

  // No refund posts for a join that committed.
  ghost predicate NoSeatRefunded(w: World, actions: seq<Action>)
    decreases |actions|
  {
    actions == [] ||
    var before, last := actions[..|actions| - 1], actions[|actions| - 1];
    && NoSeatRefunded(w, before)
    && !(last.Advance? && last.t in Run(w, before).threads
         && RefundsSeated(Run(w, before).shared, Run(w, before).threads[last.t], last.reply))
  }

  lemma FreshStep(w: World, a: Action)
    requires Inv(w) && OwnInv(w) && Fresh(w, a)
    ensures OwnInv(Step(w, a)) && MintedBy(w, a) == PaidTwiceBy(w, a)
  {
    if a.Advance? && a.t in w.threads {
      var pc := w.threads[a.t];
      assert PcOk(w.shared, pc);
      if Buying(pc) { OwnAdvance(w.shared, pc, a.reply); }
      else { OtherAdvance(w.shared, pc, a.reply, SystemLeaveKey(0, 0, 0, None)); }
    }
  }

  // Conservation: with every buy-in nonce used once, wallets, stacks, in-flight
  // debits, unpaid rows and rake add up to the same total after any run if and only
  // if no refund posts for a join that committed while reporting failure; and each
  // that does adds its amount.
  lemma {:induction false} ChipsConserved(w: World, actions: seq<Action>)
    requires Initial(w) && FreshRun(w, actions)
    ensures Value(Run(w, actions).shared) == Value(w.shared) <==> NoSeatRefunded(w, actions)
    ensures Value(Run(w, actions).shared) == Value(w.shared) + PaidTwice(w, actions)
    ensures PaidTwice(w, actions) == 0 <==> NoSeatRefunded(w, actions)
    ensures OwnInv(Run(w, actions)) && Inv(Run(w, actions))
    decreases |actions|
  {
    hide Step, Value, OwnInv, RefundsSeated, FreshRun;
    if actions == [] {
      InitiallyOwned(w);
    } else {
      var before, last := actions[..|actions| - 1], actions[|actions| - 1];
      FreshPrefix(w, actions);
      ChipsConserved(w, before);
      FreshStep(Run(w, before), last);
      StepValue(Run(w, before), last);
      StepKeepsInv(Run(w, before), last);
      PaidTwiceIsPositive(Run(w, before), last);
    }
  }

  lemma InitiallyOwned(w: World)
    requires Initial(w)
    ensures OwnInv(w) && Inv(w)
  {
  }

  lemma FreshPrefix(w: World, actions: seq<Action>)
    requires FreshRun(w, actions) && actions != []
    ensures FreshRun(w, actions[..|actions| - 1]) && Fresh(Run(w, actions[..|actions| - 1]), actions[|actions| - 1])
  {
  }

  lemma PaidTwiceIsPositive(w: World, a: Action)
    requires Inv(w)
    ensures a.Advance? && a.t in w.threads && RefundsSeated(w.shared, w.threads[a.t], a.reply) <==> PaidTwiceBy(w, a) > 0
  {
    if a.Advance? && a.t in w.threads { assert PcOk(w.shared, w.threads[a.t]); }
  }

  // ---------- A join that commits and reports failure ----------

  // The join takes effect and its caller sees an error.
  ghost predicate LosesJoin(w: World, a: Action) {
    && a.Advance? && a.t in w.threads && w.threads[a.t].BuyInJoin? && WellKeyed(w.threads[a.t])
    && a.reply == Lost && SeatFree(w.shared.seats, SeatOf(w.threads[a.t].key))
  }

  ghost predicate NoJoinLost(w: World, actions: seq<Action>)
    decreases |actions|
  {
    actions == [] ||
    (NoJoinLost(w, actions[..|actions| - 1]) && !LosesJoin(Run(w, actions[..|actions| - 1]), actions[|actions| - 1]))
  }

  ghost predicate NoneSeatedInRefund(w: World) {
    forall t :: t in w.threads && w.threads[t].BuyInRefund? ==> w.threads[t].key !in w.shared.joined
  }

  // Only a lost join brings a call to its refund with its player seated.
  lemma NoneSeatedStep(w: World, a: Action)
    requires Inv(w) && OwnInv(w) && NoneSeatedInRefund(w) && !LosesJoin(w, a)
    ensures NoneSeatedInRefund(Step(w, a))
  {
    hide SharedOk, Inv;
    if a.Advance? && a.t in w.threads && WellKeyed(w.threads[a.t]) {
      var pc := w.threads[a.t];
      assert PcOk(w.shared, pc) by { InvAt(w, a.t); }
      if Buying(pc) { assert Owns(w.shared, pc); } else { NotBuying(w.shared, pc, a.reply); }
    }
  }

  lemma InvAt(w: World, t: ThreadId)
    requires Inv(w) && t in w.threads
    ensures SharedOk(w.shared) && PcOk(w.shared, w.threads[t])
  {
  }

  lemma NotBuying(s: Shared, pc: Pc, reply: Reply)
    requires WellKeyed(pc) && !Buying(pc)
    ensures AdvancePc(s, pc, reply).0.joined == s.joined && !Buying(AdvancePc(s, pc, reply).1)
  {
  }

  // So the total holds in every run that loses no join.
  lemma {:induction false} NoLostJoinConserves(w: World, actions: seq<Action>)
    requires Initial(w) && FreshRun(w, actions) && NoJoinLost(w, actions)
    ensures Value(Run(w, actions).shared) == Value(w.shared)
    ensures NoneSeatedInRefund(Run(w, actions)) && NoSeatRefunded(w, actions)
    decreases |actions|
  {
    hide Step, Value, OwnInv, Inv, LosesJoin;
    ChipsConserved(w, actions);
    if actions != [] {
      var before := actions[..|actions| - 1];
      FreshPrefix(w, actions);
      ChipsConserved(w, before);
      NoLostJoinConserves(w, before);
      NoneSeatedStep(Run(w, before), actions[|actions| - 1]);
    }
  }

  // And in any run that loses one, the refund that the call goes on to adds its
  // amount.
  lemma LostJoinMints(w: World, a: Action)
    requires Inv(w) && OwnInv(w) && LosesJoin(w, a)
    ensures var w' := Step(Step(w, a), Advance(a.t, Landed));
      Value(w'.shared) == Value(w.shared) + w.threads[a.t].amount
  {
    hide Inv, OwnInv, Value, Step, MintedBy, PaidTwiceBy;
    LostThenOwed(w, a);
    FreshStep(w, a);
    StepValue(w, a);
    StepKeepsInv(w, a);
    OwedRefundMints(Step(w, a), a.t, w.threads[a.t].key, w.threads[a.t].amount);
  }

  lemma LostThenOwed(w: World, a: Action)
    requires LosesJoin(w, a)
    ensures var pc, w' := w.threads[a.t], Step(w, a);
      && a.t in w'.threads && w'.threads[a.t] == BuyInRefund(pc.key, pc.amount) && pc.key in w'.shared.joined
      && Fresh(w, a) && PaidTwiceBy(w, a) == 0
  {
  }

  lemma OwedRefundMints(w: World, t: ThreadId, k: Key, amount: nat)
    requires Inv(w) && OwnInv(w) && t in w.threads && w.threads[t] == BuyInRefund(k, amount) && k in w.shared.joined
    ensures Value(Step(w, Advance(t, Landed)).shared) == Value(w.shared) + amount
  {
    FreshStep(w, Advance(t, Landed));
    StepValue(w, Advance(t, Landed));
  }

  // The shortest such run, for any key and amount: one buy-in under a fresh nonce,
  // checked, debited, seated without being told, and refunded.
  function LostJoin(k: Key, amount: nat): seq<Action> {
    [StartBuyIn(1, k, amount), Advance(1, Landed), Advance(1, Landed), Advance(1, Lost), Advance(1, Landed)]
  }

  // Only the first action starts a buy-in.
  lemma LostJoinIsFresh(k: Key, amount: nat)
    ensures FreshRun(EMPTY, LostJoin(k, amount))
  {
    hide Step;
    var all := LostJoin(k, amount);
    forall n | 0 <= n < 5 ensures all[..n + 1][..n] == all[..n] {}
    assert all[..0] == [] && Run(EMPTY, []) == EMPTY;
    assert FreshRun(EMPTY, all[..1]);
    assert FreshRun(EMPTY, all[..2]);
    assert FreshRun(EMPTY, all[..3]);
    assert FreshRun(EMPTY, all[..4]);
    assert all[..5] == all;
  }

  // A step that neither seats nor refunds anybody keeps the total.
  lemma QuietStep(w: World, a: Action)
    requires Inv(w) && OwnInv(w) && Fresh(w, a) && (a.Advance? && a.t in w.threads ==> !w.threads[a.t].BuyInRefund?)
    ensures Inv(Step(w, a)) && OwnInv(Step(w, a)) && Value(Step(w, a).shared) == Value(w.shared)
  {
    hide Value;
    FreshStep(w, a);
    StepValue(w, a);
    StepKeepsInv(w, a);
  }

  lemma LostJoinHappens(k: Key, amount: nat)
    requires k.BuyInKey? && amount > 0
    ensures Initial(EMPTY) && FreshRun(EMPTY, LostJoin(k, amount))
    ensures Value(Run(EMPTY, LostJoin(k, amount)).shared) == Value(EMPTY.shared) + amount
    ensures Run(EMPTY, LostJoin(k, amount)).threads == map[1 := Done(false)]
  {
    hide Value, FreshRun, Run, Inv, OwnInv;
    var all := LostJoin(k, amount);
    RunOf(EMPTY, all, 0);
    RunOf(EMPTY, all, 1);
    RunOf(EMPTY, all, 2);
    RunOf(EMPTY, all, 3);
    RunOf(EMPTY, all, 4);
    assert all[..0] == [] && all[..5] == all;
    LostJoinIsFresh(k, amount);
    InitiallyOwned(EMPTY);
    QuietStep(EMPTY, all[0]);
    var w1 := Step(EMPTY, all[0]);
    assert w1.threads == map[1 := BuyInCheck(k, amount)];
    QuietStep(w1, all[1]);
    var w2 := Step(w1, all[1]);
    assert w2.threads == map[1 := BuyInDebit(k, amount)];
    QuietStep(w2, all[2]);
    var w3 := Step(w2, all[2]);
    assert w3.threads == map[1 := BuyInJoin(k, amount)] && w3.shared.seats == map[];
    LostJoinMints(w3, all[3]);
    var w4 := Step(w3, all[3]);
    assert w4.threads == map[1 := BuyInRefund(k, amount)];
    assert Step(w4, all[4]).threads == map[1 := Done(false)];
  }

  lemma RunOf(w: World, actions: seq<Action>, n: nat)
    requires n < |actions|
    ensures Run(w, actions[..n + 1]) == Step(Run(w, actions[..n]), actions[n])
    ensures Run(w, []) == w
  {
    assert actions[..n + 1] == actions[..n] + [actions[n]];
    RunLast(w, actions[..n], actions[n]);
  }

  // ---------- Every debit ends in a seat or a refund ----------

  // The steps that may leave a debit behind: a buy-in stops between its debit and
  // the refund, loses the debit's reply, or is refused its refund.
  ghost predicate MayStrand(w: World, a: Action) {
    match a
    case Crash(t) => t in w.threads && (w.threads[t].BuyInJoin? || w.threads[t].BuyInRefund?)
    case Advance(t, reply) =>
      t in w.threads && ((w.threads[t].BuyInDebit? && reply == Lost) || (w.threads[t].BuyInRefund? && reply == Refused))
    case _ => false
  }

  ghost predicate NoneMayStrand(w: World, actions: seq<Action>)
    decreases |actions|
  {
    actions == [] ||
    (NoneMayStrand(w, actions[..|actions| - 1]) && !MayStrand(Run(w, actions[..|actions| - 1]), actions[|actions| - 1]))
  }

  predicate Settling(pc: Pc, k: Key) { (pc.BuyInJoin? || pc.BuyInRefund?) && pc.key == k }

  // Every debit in flight has a call that is going to seat or refund it.
  ghost predicate AllTended(w: World) {
    forall k :: InFlight(w.shared, k) ==> exists t :: t in w.threads && Settling(w.threads[t], k)
  }

  // A buy-in's step tends its own debit to the end.
  lemma TendsOwn(s: Shared, pc: Pc, reply: Reply)
    requires SharedOk(s) && PcOk(s, pc) && Buying(pc) && Owns(s, pc)
    requires !(pc.BuyInDebit? && reply == Lost) && !(pc.BuyInRefund? && reply == Refused)
    ensures var (s', pc') := AdvancePc(s, pc, reply); InFlight(s', pc.key) ==> Settling(pc', pc.key)
  {
    KeysApart(s, pc.key);
  }

  lemma InFlightElsewhere(s: Shared, s': Shared, k: Key, j: Key)
    requires TouchesOnly(s, s', k) && j != k && InFlight(s', j)
    ensures InFlight(s, j)
  {
  }

  lemma TendedStep(w: World, a: Action)
    requires Inv(w) && OwnInv(w) && AllTended(w) && !MayStrand(w, a)
    ensures AllTended(Step(w, a))
  {
    var w' := Step(w, a);
    if a.Advance? && a.t in w.threads && WellKeyed(w.threads[a.t]) {
      TendedAdvance(w, a.t, a.reply);
    } else {
      forall k | InFlight(w'.shared, k)
        ensures exists t :: t in w'.threads && Settling(w'.threads[t], k)
      {
        assert InFlight(w.shared, k);
        var t :| t in w.threads && Settling(w.threads[t], k);
        assert t in w'.threads && w'.threads[t] == w.threads[t];
      }
    }
  }

  lemma TendedAdvance(w: World, t: ThreadId, reply: Reply)
    requires Inv(w) && OwnInv(w) && AllTended(w) && t in w.threads && !MayStrand(w, Advance(t, reply))
    ensures AllTended(Step(w, Advance(t, reply)))
  {
    var pc := w.threads[t];
    InvAt(w, t);
    var x := AdvancePc(w.shared, pc, reply);
    var own := if Buying(pc) then pc.key else SystemLeaveKey(0, 0, 0, None);
    if Buying(pc) {
      assert Owns(w.shared, pc);
      OwnAdvance(w.shared, pc, reply);
      TendsOwn(w.shared, pc, reply);
    } else {
      OtherAdvance(w.shared, pc, reply, own);
    }
    hide SharedOk, PcOk, TouchesOnly, AdvancePc, Owns;
    var w' := Step(w, Advance(t, reply));
    assert w' == w.(shared := x.0, threads := w.threads[t := x.1]);
    forall k | InFlight(w'.shared, k)
      ensures exists u :: u in w'.threads && Settling(w'.threads[u], k)
    {
      if Buying(pc) && k == pc.key {
        assert Settling(w'.threads[t], k);
      } else {
        InFlightElsewhere(w.shared, x.0, own, k);
        var u :| u in w.threads && Settling(w.threads[u], k);
        assert w'.threads[u] == w.threads[u];
      }
    }
  }

  // In every fresh run in which no buy-in is cut short after its debit, loses the
  // debit's reply, or is refused its refund: once no buy-in is in progress, every
  // debit has been answered by a seat or a refund.
  lemma {:induction false} NoDebitLeftBehind(w: World, actions: seq<Action>)
    requires Initial(w) && FreshRun(w, actions) && NoneMayStrand(w, actions)
    ensures AllTended(Run(w, actions))
    ensures var x := Run(w, actions);
      (forall t :: t in x.threads ==> !Buying(x.threads[t])) ==> Floating(x.shared) == map[]
    decreases |actions|
  {
    hide Step, Inv, OwnInv, MayStrand, Value;
    if actions != [] {
      var before := actions[..|actions| - 1];
      FreshPrefix(w, actions);
      ChipsConserved(w, before);
      NoDebitLeftBehind(w, before);
      TendedStep(Run(w, before), actions[|actions| - 1]);
    }
    NothingFloats(Run(w, actions));
  }

  lemma NothingFloats(w: World)
    requires AllTended(w)
    ensures (forall t :: t in w.threads ==> !Buying(w.threads[t])) ==> Floating(w.shared) == map[]
  {
    if forall t :: t in w.threads ==> !Buying(w.threads[t]) {
      forall k ensures !InFlight(w.shared, k) {}
    }
  }

  // And each of those steps can strand one: a debit whose reply is lost, a refused
  // refund, or a stop in between leaves an unseated debit in flight with no call.
  lemma Stranded(w: World, a: Action)
    requires Inv(w) && OwnInv(w) && MayStrand(w, a)
    ensures var k := w.threads[a.t].key; var w' := Step(w, a);
      k !in w.shared.joined ==> InFlight(w'.shared, k) && forall t :: t in w'.threads ==> !(Buying(w'.threads[t]) && w'.threads[t].key == k)
  {
    var pc := w.threads[a.t];
    InvAt(w, a.t);
    assert Owns(w.shared, pc);
    KeysApart(w.shared, pc.key);
    hide Inv, SharedOk;
  }

  // The condition is needed. Two calls sharing one nonce both pass the seat
  // check; the loser of the join refunds the debit that already paid for the
  // winner's seat.
  const SHARED_KEY: Key := BuyInKey(1, 1, Client(1))
  const EMPTY: World := World(Shared(map[], map[], map[], {}, 0), map[], {})
  const TWINS: seq<Action> := [StartBuyIn(1, SHARED_KEY, 100), StartBuyIn(2, SHARED_KEY, 100)]
  const INTERLEAVED: seq<Action> :=
    [Advance(1, Landed), Advance(2, Landed), Advance(1, Landed), Advance(2, Landed), Advance(1, Landed), Advance(2, Landed), Advance(2, Landed)]

  lemma SharedNonceBreaksTotal()
    ensures Initial(EMPTY) && !FreshRun(EMPTY, TWINS + INTERLEAVED)
    ensures Value(Run(EMPTY, TWINS + INTERLEAVED).shared) == Value(EMPTY.shared) + 100
  {
    var k := SHARED_KEY;
    var w1 := Step(EMPTY, TWINS[0]);
    RunFirst(EMPTY, TWINS[0], [TWINS[1]] + INTERLEAVED);
    assert TWINS + INTERLEAVED == [TWINS[0]] + ([TWINS[1]] + INTERLEAVED);
    RunFirst(w1, TWINS[1], INTERLEAVED);
    assert TWINS[..1] == [TWINS[0]];
    RunLast(EMPTY, [], TWINS[0]);
    assert [] + [TWINS[0]] == TWINS[..1];
    assert !FreshRun(EMPTY, TWINS);
    StaleStaysStale(EMPTY, TWINS, INTERLEAVED);
    TwinsRun(Step(w1, TWINS[1]));
    TwinsValue(Run(EMPTY, TWINS + INTERLEAVED).shared);
    assert Deltas(EMPTY.shared) == map[] && Stacks(EMPTY.shared) == map[];
    assert Floating(EMPTY.shared) == map[] && Owed(EMPTY.shared) == map[];
  }

  function TwinWorld(ledger: map<Key, Entry>, seats: map<Seat, nat>, joined: set<Key>, p: Pc, q: Pc): World {
    World(Shared(ledger, seats, map[], joined, 0), map[1 := p, 2 := q], {SHARED_KEY})
  }

  lemma TwinsCheck(w: World)
    requires w == TwinWorld(map[], map[], {}, BuyInCheck(SHARED_KEY, 100), BuyInCheck(SHARED_KEY, 100))
    ensures Step(Step(w, INTERLEAVED[0]), INTERLEAVED[1]) ==
      TwinWorld(map[], map[], {}, BuyInDebit(SHARED_KEY, 100), BuyInDebit(SHARED_KEY, 100))
  {
  }

  lemma TwinsDebit(w: World)
    requires w == TwinWorld(map[], map[], {}, BuyInDebit(SHARED_KEY, 100), BuyInDebit(SHARED_KEY, 100))
    ensures Step(Step(w, INTERLEAVED[2]), INTERLEAVED[3]) ==
      TwinWorld(map[SHARED_KEY := Entry(1, -100)], map[], {}, BuyInJoin(SHARED_KEY, 100), BuyInJoin(SHARED_KEY, 100))
  {
  }

  lemma TwinsJoin(w: World)
    requires w == TwinWorld(map[SHARED_KEY := Entry(1, -100)], map[], {}, BuyInJoin(SHARED_KEY, 100), BuyInJoin(SHARED_KEY, 100))
    ensures Step(Step(w, INTERLEAVED[4]), INTERLEAVED[5]) ==
      TwinWorld(map[SHARED_KEY := Entry(1, -100)], map[Seat(1, 1) := 100], {SHARED_KEY}, Done(true), BuyInRefund(SHARED_KEY, 100))
  {
    assert SeatOf(SHARED_KEY) == Seat(1, 1);
    assert Step(w, INTERLEAVED[4]) ==
      TwinWorld(map[SHARED_KEY := Entry(1, -100)], map[Seat(1, 1) := 100], {SHARED_KEY}, Done(true), BuyInJoin(SHARED_KEY, 100));
  }

  lemma TwinsRefund(w: World)
    requires w == TwinWorld(map[SHARED_KEY := Entry(1, -100)], map[Seat(1, 1) := 100], {SHARED_KEY}, Done(true), BuyInRefund(SHARED_KEY, 100))
    ensures Step(w, INTERLEAVED[6]).shared ==
      Shared(map[SHARED_KEY := Entry(1, -100), RefundOf(SHARED_KEY) := Entry(1, 100)], map[Seat(1, 1) := 100], map[], {SHARED_KEY}, 0)
  {
  }

  lemma RunPair(w: World, a: Action, b: Action, rest: seq<Action>)
    ensures Run(w, [a, b] + rest) == Run(Step(Step(w, a), b), rest)
  {
    assert [a, b] + rest == [a] + ([b] + rest);
    RunFirst(w, a, [b] + rest);
    RunFirst(Step(w, a), b, rest);
  }

  lemma TwinsRun(w: World)
    requires w == TwinWorld(map[], map[], {}, BuyInCheck(SHARED_KEY, 100), BuyInCheck(SHARED_KEY, 100))
    ensures Run(w, INTERLEAVED).shared ==
      Shared(map[SHARED_KEY := Entry(1, -100), RefundOf(SHARED_KEY) := Entry(1, 100)], map[Seat(1, 1) := 100], map[], {SHARED_KEY}, 0)
  {
    var i := INTERLEAVED;
    assert i == [i[0], i[1]] + i[2..] && i[2..] == [i[2], i[3]] + i[4..] && i[4..] == [i[4], i[5]] + [i[6]];
    TwinsCheck(w);
    RunPair(w, i[0], i[1], i[2..]);
    var w2 := Step(Step(w, i[0]), i[1]);
    TwinsDebit(w2);
    RunPair(w2, i[2], i[3], i[4..]);
    var w4 := Step(Step(w2, i[2]), i[3]);
    TwinsJoin(w4);
    RunPair(w4, i[4], i[5], [i[6]]);
    var w6 := Step(Step(w4, i[4]), i[5]);
    TwinsRefund(w6);
    RunLast(w6, [], i[6]);
    assert [] + [i[6]] == [i[6]];
  }

  lemma TwinsValue(s: Shared)
    requires s == Shared(map[SHARED_KEY := Entry(1, -100), RefundOf(SHARED_KEY) := Entry(1, 100)], map[Seat(1, 1) := 100], map[], {SHARED_KEY}, 0)
    ensures Value(s) == 100
  {
    var k := SHARED_KEY;
    TotalPut(map[], k, -100);
    TotalPut(map[k := -100], RefundOf(k), 100);
    TotalPut(map[], Seat(1, 1), 100);
    assert Deltas(s) == map[k := -100][RefundOf(k) := 100];
    assert Stacks(s) == map[][Seat(1, 1) := 100];
    assert Floating(s) == map[] && Owed(s) == map[];
  }

  lemma {:induction false} StaleStaysStale(w: World, first: seq<Action>, more: seq<Action>)
    requires !FreshRun(w, first)
    ensures !FreshRun(w, first + more)
    decreases |more|
  {
    if more == [] {
      assert first + more == first;
    } else {
      assert (first + more)[..|first + more| - 1] == first + more[..|more| - 1];
      StaleStaysStale(w, first, more[..|more| - 1]);
    }
  }

  // ---------- Settlement ----------

  // Over every run, reused nonces included: a settlement key is credited with
  // the amount and to the player its row names, and a row that owes chips is
  // resolved only once they are in the ledger.
  lemma SettlementSafety(w: World, actions: seq<Action>, k: Key)
    requires Initial(w) && IsSettlement(k)
    ensures var s := Run(w, actions).shared;
      && (k in s.ledger ==> k in s.rows && s.rows[k].amount > 0 && s.ledger[k] == Entry(k.player, s.rows[k].amount))
      && (k in s.rows && s.rows[k].resolved && s.rows[k].amount > 0 ==> k in s.ledger)
  {
    RunKeepsInv(w, actions);
    var s := Run(w, actions).shared;
    if k in s.ledger { assert LedgerOk(s, k) && RowOk(s, k); }
    if k in s.rows { assert RowOk(s, k); }
  }

  // A credit, and the amount a row was recorded with, never change again.
  lemma {:induction false} SettlementStable(w: World, first: seq<Action>, more: seq<Action>, k: Key)
    requires Initial(w)
    ensures var s, s' := Run(w, first).shared, Run(Run(w, first), more).shared;
      && (k in s.ledger ==> k in s'.ledger && s'.ledger[k] == s.ledger[k])
      && (k in s.rows ==> k in s'.rows && s'.rows[k].amount == s.rows[k].amount && s'.rows[k].player == s.rows[k].player)
  {
    RunKeepsInv(w, first);
    RunKeepsInv(Run(w, first), more);
  }

  function AllLanded(n: nat): (replies: seq<Reply>)
    ensures |replies| == n
  {
    seq(n, i => Landed)
  }

  ghost predicate Settled(s: Shared, e: Due) {
    e.row.amount > 0 ==> e.key in s.ledger && e.key in s.rows && s.rows[e.key].resolved
  }

  ghost predicate StaysResolved(s: Shared, s': Shared) {
    forall k :: k in s.rows && s.rows[k].resolved ==> k in s'.rows && s'.rows[k].resolved
  }

  lemma SweepOne(s: Shared, q: seq<Due>)
    requires SharedOk(s) && QueueOk(s, q) && q != []
    ensures var next := AdvancePc(s, Sweep(q), Landed);
      var last := AdvancePc(next.0, next.1, Landed);
      && last.1 == Sweep(q[1..]) && SharedOk(last.0) && Grows(s, last.0)
      && Settled(last.0, q[0]) && StaysResolved(s, last.0)
  {
    assert DueOk(s, q[0]);
    var next := AdvanceSweep(s, Sweep(q), Landed);
    SweepKeepsOk(s, Sweep(q), Landed);
    SweepKeepsOk(next.0, next.1, Landed);
  }

  // An undisturbed sweep credits and resolves every row it listed that owes chips.
  lemma {:induction false} SweepSettles(s: Shared, q: seq<Due>)
    requires SharedOk(s) && QueueOk(s, q)
    ensures var (s', pc') := Solo(s, Sweep(q), AllLanded(2 * |q|));
      && pc' == Sweep([]) && SharedOk(s') && Grows(s, s') && StaysResolved(s, s')
      && (forall i :: 0 <= i < |q| ==> Settled(s', q[i]))
    decreases |q|
  {
    hide AdvancePc, SharedOk, QueueOk, Grows, StaysResolved, Settled;
    if q == [] {
      NothingChanges(s);
    } else {
      var next := AdvancePc(s, Sweep(q), Landed);
      var last := AdvancePc(next.0, next.1, Landed);
      SweepOne(s, q);
      QueueStable(s, last.0, q);
      QueueTail(last.0, q);
      SweepSettles(last.0, q[1..]);
      SoloTwice(s, Sweep(q), AllLanded(2 * |q|));
      assert AllLanded(2 * |q|)[2..] == AllLanded(2 * |q[1..]|);
      var s' := Solo(s, Sweep(q), AllLanded(2 * |q|)).0;
      ChangesChain(s, last.0, s', q[0]);
      forall i | 0 <= i < |q| ensures Settled(s', q[i]) {
        if i > 0 { assert q[i] == q[1..][i - 1]; }
      }
    }
  }

  // An entry that could not be credited is counted against its row and the sweep goes
  // on; the last attempt allowed takes the row out of later sweeps.
  lemma FailedEntryIsCounted(s: Shared, q: seq<Due>, replies: seq<Reply>)
    requires q != [] && q[0].key in s.rows && |replies| >= 2 && replies[0] == Refused && replies[1] == Landed
    ensures var k, attempts := q[0].key, q[0].row.attempts + 1;
      var row := s.rows[k];
      var s' := s.(rows := s.rows[k := row.(attempts := attempts, open := row.open && attempts < MAX_ATTEMPTS)]);
      Solo(s, Sweep(q), replies) == Solo(s', Sweep(q[1..]), replies[2..])
  {
    hide Solo;
    SoloTwice(s, Sweep(q), replies);
  }

  lemma NothingChanges(s: Shared)
    ensures Grows(s, s) && StaysResolved(s, s)
  {
  }

  lemma ChangesChain(s: Shared, s': Shared, s'': Shared, e: Due)
    requires Grows(s, s') && Grows(s', s'') && StaysResolved(s, s') && StaysResolved(s', s'') && Settled(s', e)
    ensures Grows(s, s'') && StaysResolved(s, s'') && Settled(s'', e)
  {
  }

  lemma SoloTwice(s: Shared, pc: Pc, replies: seq<Reply>)
    requires WellKeyed(pc) && |replies| >= 2
    ensures var next := AdvancePc(s, pc, replies[0]);
      var last := AdvancePc(next.0, next.1, replies[1]);
      Solo(s, pc, replies) == Solo(last.0, last.1, replies[2..])
  {
    assert replies[1..][1..] == replies[2..];
  }
}
