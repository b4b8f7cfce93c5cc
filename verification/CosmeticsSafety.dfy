// What every interleaving of purchases, refreshes and refunds of one item keeps.
module CosmeticsSafety {
  import opened Sums
  import opened Cosmetics

  ghost predicate Is(s: Shared, i: Idem, status: Status) { i in s.recs && s.recs[i] == status }

  // The history row and the ownership row tell one story.
  ghost predicate RowsAgree(s: Shared) {
    && (forall i :: Is(s, i, Processing) <==> s.ent == Some(Ent(Bought(i), false)))
    && (forall i :: Is(s, i, Confirmed) <==> s.ent == Some(Ent(Bought(i), true)))
  }

  ghost predicate MoneyOk(s: Shared) {
    && (forall i :: i in s.recs && s.recs[i] != Processing ==> i in s.debits)
    && (forall i :: i in s.credits ==> Is(s, i, Refunding) || Is(s, i, Refunded))
    && (forall i :: Is(s, i, Refunded) ==> i in s.credits)
    && (forall i :: i in s.debits ==> s.debits[i] == s.price)
    && (forall i :: i in s.credits ==> s.credits[i] == s.price)
  }

  ghost predicate PcOk(s: Shared, pc: Pc) {
    WellFormed(pc) &&
    match pc
    case Confirming(i) => i in s.debits
    case Crediting(i) => Is(s, i, Refunding) || Is(s, i, Refunded)
    case Completing(i) => i in s.credits
    case CompleteReread(i) => i in s.credits
    case Done(result) => (result.RefundDone? ==> result.idem in s.credits) && (result.Owned? ==> result.idem in s.debits)
    case RecheckEnt(i) => i in s.debits
    case _ => true
  }

  ghost predicate Inv(w: World) {
    RowsAgree(w.shared) && MoneyOk(w.shared) && forall t :: t in w.threads ==> PcOk(w.shared, w.threads[t])
  }

  ghost predicate Initial(w: World) {
    w.threads == map[] && w.shared.ent.None? && w.shared.recs == map[] && w.shared.debits == map[] && w.shared.credits == map[]
  }

  // Debits, credits and the refund side of the history only ever move forward.
  ghost predicate Forward(s: Shared, s': Shared) {
    && s'.price == s.price
    && (forall i :: i in s.debits ==> i in s'.debits && s'.debits[i] == s.debits[i])
    && (forall i :: i in s.credits ==> i in s'.credits && s'.credits[i] == s.credits[i])
    && (forall i :: Is(s, i, Refunding) ==> Is(s', i, Refunding) || Is(s', i, Refunded))
    && (forall i :: Is(s, i, Refunded) ==> Is(s', i, Refunded))
  }

  ghost predicate Kept(s: Shared, next: (Shared, Pc)) {
    RowsAgree(next.0) && MoneyOk(next.0) && PcOk(next.0, next.1) && Forward(s, next.0)
  }

  lemma ReadKeepsOk(s: Shared, pc: Pc, env: Env)
    requires RowsAgree(s) && MoneyOk(s) && PcOk(s, pc)
    requires pc.ReadEnt? || pc.ReadRec? || pc.RefreshLoad?
    ensures Kept(s, Advance(s, pc, env))
  {
  }

  lemma ReserveKeepsOk(s: Shared, pc: Pc, env: Env)
    requires RowsAgree(s) && MoneyOk(s) && PcOk(s, pc) && pc.Reserving?
    ensures Kept(s, Advance(s, pc, env))
  {
  }

  lemma DebitKeepsOk(s: Shared, pc: Pc, env: Env)
    requires RowsAgree(s) && MoneyOk(s) && PcOk(s, pc) && pc.Debiting?
    ensures Kept(s, Advance(s, pc, env))
  {
  }

  lemma FinishKeepsOk(s: Shared, pc: Pc, env: Env)
    requires RowsAgree(s) && MoneyOk(s) && PcOk(s, pc)
    requires pc.Cancelling? || pc.Confirming? || pc.RecheckRec? || pc.RecheckEnt?
    ensures Kept(s, Advance(s, pc, env))
  {
  }

  lemma RefundKeepsOk(s: Shared, pc: Pc, env: Env)
    requires RowsAgree(s) && MoneyOk(s) && PcOk(s, pc)
    requires pc.RefundLoad? || pc.RefundEnt? || pc.BeginningRefund? || pc.RefundReread?
    ensures Kept(s, Advance(s, pc, env))
  {
  }

  lemma CreditKeepsOk(s: Shared, pc: Pc, env: Env)
    requires RowsAgree(s) && MoneyOk(s) && PcOk(s, pc)
    requires pc.Crediting? || pc.Completing? || pc.CompleteReread?
    ensures Kept(s, Advance(s, pc, env))
  {
  }

  lemma AdvanceKeepsOk(s: Shared, pc: Pc, env: Env)
    requires RowsAgree(s) && MoneyOk(s) && PcOk(s, pc)
    ensures Kept(s, Advance(s, pc, env))
  {
    if pc.ReadEnt? || pc.ReadRec? || pc.RefreshLoad? {
      ReadKeepsOk(s, pc, env);
    } else if pc.Reserving? {
      ReserveKeepsOk(s, pc, env);
    } else if pc.Debiting? {
      DebitKeepsOk(s, pc, env);
    } else if pc.Cancelling? || pc.Confirming? || pc.RecheckRec? || pc.RecheckEnt? {
      FinishKeepsOk(s, pc, env);
    } else if pc.RefundLoad? || pc.RefundEnt? || pc.BeginningRefund? || pc.RefundReread? {
      RefundKeepsOk(s, pc, env);
    } else if !pc.Done? {
      CreditKeepsOk(s, pc, env);
    }
  }

  lemma ThreadsStable(s: Shared, s': Shared, threads: map<ThreadId, Pc>)
    requires Forward(s, s') && forall t :: t in threads ==> PcOk(s, threads[t])
    ensures forall t :: t in threads ==> PcOk(s', threads[t])
  {
    forall t | t in threads ensures PcOk(s', threads[t]) { assert PcOk(s, threads[t]); }
  }

  lemma StepKeepsInv(w: World, a: Action)
    requires Inv(w)
    ensures Inv(Step(w, a)) && Forward(w.shared, Step(w, a).shared)
  {
    if a.Go? && a.t in w.threads {
      hide Advance;
      AdvanceKeepsOk(w.shared, w.threads[a.t], a.env);
      ThreadsStable(w.shared, Step(w, a).shared, w.threads);
    } else if a.Grant? {
      assert Forward(w.shared, Step(w, a).shared);
      ThreadsStable(w.shared, Step(w, a).shared, w.threads);
    }
  }

  lemma {:induction false} RunKeepsInv(w: World, actions: seq<Action>)
    requires Inv(w)
    ensures Inv(Run(w, actions)) && Forward(w.shared, Run(w, actions).shared)
    decreases |actions|
  {
    hide Step;
    if actions != [] {
      RunKeepsInv(w, actions[..|actions| - 1]);
      StepKeepsInv(Run(w, actions[..|actions| - 1]), actions[|actions| - 1]);
    }
  }

  // ---------- Results over every run ----------

  // Owning the item means its debit is in the ledger and no refund was ever
  // credited; a refund credit means the purchase is on its way out or gone, and
  // returns exactly what was charged.
  lemma OwnershipIsPaid(w: World, actions: seq<Action>, i: Idem)
    requires Initial(w)
    ensures var s := Run(w, actions).shared;
      && (s.ent == Some(Ent(Bought(i), true)) ==> Is(s, i, Confirmed) && i in s.debits && i !in s.credits)
      && (s.ent == Some(Ent(Bought(i), false)) ==> Is(s, i, Processing) && i !in s.credits)
      && (i in s.credits ==> (Is(s, i, Refunding) || Is(s, i, Refunded)) && i in s.debits && s.credits[i] == s.debits[i])
      && (Is(s, i, Refunded) ==> i in s.credits)
  {
    RunKeepsInv(w, actions);
  }

  // Once its refund has begun, a purchase never comes back, however often its
  // key is replayed.
  lemma RefundIsFinal(w: World, first: seq<Action>, more: seq<Action>, i: Idem)
    requires Initial(w)
    requires Is(Run(w, first).shared, i, Refunding) || Is(Run(w, first).shared, i, Refunded)
    ensures var s := Run(Run(w, first), more).shared;
      (Is(s, i, Refunding) || Is(s, i, Refunded)) && (s.ent.Some? ==> s.ent.value.owner != Bought(i))
  {
    RunKeepsInv(w, first);
    RunKeepsInv(Run(w, first), more);
  }

  // A purchase loses its history row only to a cancellation that follows the
  // wallet's definitive refusal.
  lemma RowLostOnlyByCancel(w: World, a: Action, i: Idem)
    requires Inv(w) && i in w.shared.recs && i !in Step(w, a).shared.recs
    ensures a.Go? && a.t in w.threads && w.threads[a.t] == Cancelling(i) && Is(w.shared, i, Processing)
  {
  }

  const OK: Env := Env(Landed, false)

  // A purchase of a free item by a player whose wallet accepts: one debit under
  // this key, the item owned, the history confirmed. A debit that outlived its
  // cancelled rows is used, not repeated.
  lemma FreshPurchase(s: Shared, i: Idem)
    requires s.ent.None? && i !in s.recs && (i in s.debits ==> s.debits[i] == s.price)
    ensures Solo(s, Reserving(i), [OK, OK, OK]) ==
      (Shared(s.price, Some(Ent(Bought(i), true)), s.recs[i := Confirmed], s.debits[i := s.price], s.credits), Done(Owned(i)))
  {
    hide Solo;
    SoloLast(s, Reserving(i), [], OK);
    SoloLast(s, Reserving(i), [OK], OK);
    SoloLast(s, Reserving(i), [OK, OK], OK);
    assert [] + [OK] == [OK] && [OK] + [OK] == [OK, OK] && [OK, OK] + [OK] == [OK, OK, OK];
    var s1 := Reserve(s, i);
    assert Solo(s, Reserving(i), [OK]) == (s1, Debiting(i));
    var s2 := Debit(s1, i);
    assert Solo(s, Reserving(i), [OK, OK]) == (s2, Confirming(i));
    assert s2.debits == s.debits[i := s.price];
    assert s2.recs[i := Confirmed] == s.recs[i := Confirmed];
  }

  lemma RefundBegins(s: Shared, i: Idem)
    requires s.ent == Some(Ent(Bought(i), true)) && Is(s, i, Confirmed)
    ensures Solo(s, RefundLoad(i), [OK, OK, OK]) == (BeginRefund(s, i), Crediting(i))
  {
    hide Solo;
    var pc := RefundLoad(i);
    SoloLast(s, pc, [], OK);
    SoloLast(s, pc, [OK], OK);
    SoloLast(s, pc, [OK, OK], OK);
    assert [] + [OK] == [OK] && [OK] + [OK] == [OK, OK] && [OK, OK] + [OK] == [OK, OK, OK];
    assert Solo(s, pc, [OK]) == (s, RefundEnt(i));
    assert Solo(s, pc, [OK, OK]) == (s, BeginningRefund(i));
  }

  // A refund of an owned item that is not in use: ownership closed, the price
  // credited once, the history refunded.
  lemma FreshRefund(s: Shared, i: Idem)
    requires s.ent == Some(Ent(Bought(i), true)) && Is(s, i, Confirmed) && i !in s.credits
    ensures Solo(s, RefundLoad(i), [OK, OK, OK, OK, OK]) ==
      (Shared(s.price, None, s.recs[i := Refunded], s.debits, s.credits[i := s.price]), Done(RefundDone(i)))
  {
    hide Solo;
    var pc := RefundLoad(i);
    RefundBegins(s, i);
    SoloLast(s, pc, [OK, OK, OK], OK);
    SoloLast(s, pc, [OK, OK, OK, OK], OK);
    assert [OK, OK, OK] + [OK] == [OK, OK, OK, OK] && [OK, OK, OK, OK] + [OK] == [OK, OK, OK, OK, OK];
    var s4 := Credit(BeginRefund(s, i), i);
    assert Solo(s, pc, [OK, OK, OK, OK]) == (s4, Completing(i));
    assert s4.recs[i := Refunded] == s.recs[i := Refunded];
  }

  // An item in use is not refunded: nothing changes.
  lemma InUseIsKept(s: Shared, i: Idem)
    requires s.ent == Some(Ent(Bought(i), true)) && Is(s, i, Confirmed)
    ensures Solo(s, RefundLoad(i), [OK, Env(Landed, true)]) == (s, Done(Error))
  {
    hide Solo;
    var pc := RefundLoad(i);
    SoloLast(s, pc, [], OK);
    SoloLast(s, pc, [OK], Env(Landed, true));
    assert [] + [OK] == [OK] && [OK] + [Env(Landed, true)] == [OK, Env(Landed, true)];
  }

  // The converse fails: a debit can outlive its rows. A refresh resumes the
  // purchase while its creator, just refused for lack of funds, cancels it.
  // FreshPurchase above is what a replay of the key then does.
  const IDLE: World := World(Shared(50, None, map[], map[], map[]), map[])
  const REFUSAL: Env := Env(Rejected, false)
  const RACE: seq<Action> :=
    [StartCreate(1, 7), Go(1, OK), StartRefresh(2, 7), Go(2, OK), Go(1, REFUSAL), Go(2, OK), Go(1, OK), Go(2, OK), Go(2, OK)]

  lemma DebitMayOutliveRows()
    ensures Initial(IDLE) && Run(IDLE, RACE) ==
      World(Shared(50, None, map[], map[7 := 50], map[]), map[1 := Done(Error), 2 := Done(Error)])
  {
    hide Run;
    var half := RACE[..5];
    RaceStart(half);
    RunLast(IDLE, half, RACE[5]);
    RunLast(IDLE, half + [RACE[5]], RACE[6]);
    RunLast(IDLE, half + [RACE[5]] + [RACE[6]], RACE[7]);
    RunLast(IDLE, half + [RACE[5]] + [RACE[6]] + [RACE[7]], RACE[8]);
    assert RACE == half + [RACE[5]] + [RACE[6]] + [RACE[7]] + [RACE[8]];
    var w6 := Step(Run(IDLE, half), RACE[5]);
    assert w6 == World(Shared(50, Some(Ent(Bought(7), false)), map[7 := Processing], map[7 := 50], map[]), map[1 := Cancelling(7), 2 := Confirming(7)]);
    var w7 := Step(w6, RACE[6]);
    assert w7 == World(Shared(50, None, map[], map[7 := 50], map[]), map[1 := Done(Error), 2 := Confirming(7)]);
    var w8 := Step(w7, RACE[7]);
    assert w8.threads == map[1 := Done(Error), 2 := RecheckRec(7)];
  }

  lemma RaceStart(half: seq<Action>)
    requires half == RACE[..5]
    ensures Run(IDLE, half) ==
      World(Shared(50, Some(Ent(Bought(7), false)), map[7 := Processing], map[], map[]), map[1 := Cancelling(7), 2 := Debiting(7)])
  {
    hide Run;
    RunLast(IDLE, [], RACE[0]);
    RunLast(IDLE, [] + [RACE[0]], RACE[1]);
    RunLast(IDLE, [] + [RACE[0]] + [RACE[1]], RACE[2]);
    RunLast(IDLE, [] + [RACE[0]] + [RACE[1]] + [RACE[2]], RACE[3]);
    RunLast(IDLE, [] + [RACE[0]] + [RACE[1]] + [RACE[2]] + [RACE[3]], RACE[4]);
    assert half == [] + [RACE[0]] + [RACE[1]] + [RACE[2]] + [RACE[3]] + [RACE[4]];
    var w2 := Step(Step(IDLE, RACE[0]), RACE[1]);
    assert w2 == World(Shared(50, Some(Ent(Bought(7), false)), map[7 := Processing], map[], map[]), map[1 := Debiting(7)]);
    var w4 := Step(Step(w2, RACE[2]), RACE[3]);
    assert w4.threads == map[1 := Debiting(7), 2 := Debiting(7)];
  }
}
