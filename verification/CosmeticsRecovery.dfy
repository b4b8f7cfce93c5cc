// Interrupted purchases and refunds are finished by one undisturbed retry.
module CosmeticsRecovery {
  import opened Sums
  import opened Cosmetics
  import opened CosmeticsSafety

  // n answers that all succeed.
  function AllOk(n: nat): (envs: seq<Env>)
    ensures |envs| == n
  {
    seq(n, k => OK)
  }

  lemma SoloOk(s: Shared, pc: Pc, n: nat)
    requires WellFormed(pc)
    ensures var x := Solo(s, pc, AllOk(n)); Solo(s, pc, AllOk(n + 1)) == Advance(x.0, x.1, OK)
    ensures Solo(s, pc, AllOk(0)) == (s, pc)
  {
    hide Advance;
    assert AllOk(n + 1) == AllOk(n) + [OK];
    SoloLast(s, pc, AllOk(n), OK);
  }

  // ---------- Refunds ----------

  function Credited(s: Shared, i: Idem): map<Idem, nat> {
    if i in s.credits then s.credits else s.credits[i := s.price]
  }

  // A refund under way is resumed: credited once, completed, answered.
  lemma RefundResumes(s: Shared, i: Idem)
    requires MoneyOk(s) && Is(s, i, Refunding)
    ensures Solo(s, RefundLoad(i), AllOk(3)) ==
      (s.(recs := s.recs[i := Refunded], credits := Credited(s, i)), Done(RefundDone(i)))
    ensures Credited(s, i)[i] == s.price && i in s.debits && s.debits[i] == s.price
  {
    hide Solo, Advance;
    var pc := RefundLoad(i);
    SoloOk(s, pc, 0);
    SoloOk(s, pc, 1);
    SoloOk(s, pc, 2);
    ResumedSteps(s, i);
  }

  lemma ResumedSteps(s: Shared, i: Idem)
    requires Is(s, i, Refunding)
    ensures var s1 := Credit(s, i);
      && Advance(s, RefundLoad(i), OK) == (s, Crediting(i))
      && Advance(s, Crediting(i), OK) == (s1, Completing(i))
      && Advance(s1, Completing(i), OK) ==
         (s.(recs := s.recs[i := Refunded], credits := Credited(s, i)), Done(RefundDone(i)))
  {
    assert Credit(s, i).credits == Credited(s, i);
  }

  // Where a refund of i can be: not begun, under way, or done.
  ghost predicate NotBegun(s: Shared, i: Idem) {
    Is(s, i, Confirmed) && s.ent == Some(Ent(Bought(i), true)) && i !in s.credits
  }

  ghost predicate AtSomeStage(s: Shared, i: Idem) { NotBegun(s, i) || Is(s, i, Refunding) || Is(s, i, Refunded) }

  // The program counters of a refund of i.
  predicate Refunds(pc: Pc, i: Idem) {
    pc == RefundLoad(i) || pc == RefundEnt(i) || pc == BeginningRefund(i) || pc == RefundReread(i) ||
    pc == Crediting(i) || pc == Completing(i) || pc == CompleteReread(i) || pc.Done?
  }

  lemma StageStep(s: Shared, pc: Pc, i: Idem, env: Env)
    requires RowsAgree(s) && MoneyOk(s) && PcOk(s, pc) && Refunds(pc, i) && AtSomeStage(s, i)
    ensures var x := Advance(s, pc, env);
      RowsAgree(x.0) && MoneyOk(x.0) && PcOk(x.0, x.1) && Refunds(x.1, i) && AtSomeStage(x.0, i)
  {
    AdvanceKeepsOk(s, pc, env);
  }

  lemma {:induction false} StageStays(s: Shared, i: Idem, envs: seq<Env>)
    requires RowsAgree(s) && MoneyOk(s) && AtSomeStage(s, i)
    ensures var x := Solo(s, RefundLoad(i), envs);
      RowsAgree(x.0) && MoneyOk(x.0) && PcOk(x.0, x.1) && Refunds(x.1, i) && AtSomeStage(x.0, i)
    decreases |envs|
  {
    hide Advance, RowsAgree, MoneyOk, AtSomeStage;
    if envs != [] {
      var before := envs[..|envs| - 1];
      StageStays(s, i, before);
      var x := Solo(s, RefundLoad(i), before);
      StageStep(x.0, x.1, i, envs[|envs| - 1]);
    }
  }

  // One undisturbed call from any of the stages: the row is refunded with exactly
  // the price credited; whoever finds it refunded already is told so.
  lemma RetryCompletes(s: Shared, i: Idem)
    requires RowsAgree(s) && MoneyOk(s) && AtSomeStage(s, i)
    ensures var (s', pc) := Solo(s, RefundLoad(i), AllOk(5));
      && Is(s', i, Refunded) && s'.credits == Credited(s, i) && Credited(s, i)[i] == s.price
      && s'.debits == s.debits && s'.ent == (if NotBegun(s, i) then None else s.ent)
      && pc == Done(if Is(s, i, Refunded) then Error else RefundDone(i))
  {
    hide Solo, AllOk;
    if NotBegun(s, i) {
      FiveOk();
      FreshRefund(s, i);
    } else if Is(s, i, Refunding) {
      RefundResumes(s, i);
      DoneStays(s, RefundLoad(i), 3, 5);
    } else {
      SoloOk(s, RefundLoad(i), 0);
      DoneStays(s, RefundLoad(i), 1, 5);
    }
  }

  lemma FiveOk()
    ensures AllOk(5) == [OK, OK, OK, OK, OK]
  {
  }

  lemma {:induction false} DoneStays(s: Shared, pc: Pc, m: nat, n: nat)
    requires WellFormed(pc) && m <= n && Solo(s, pc, AllOk(m)).1.Done?
    ensures Solo(s, pc, AllOk(n)) == Solo(s, pc, AllOk(m))
    decreases n
  {
    hide Solo;
    if m < n {
      DoneStays(s, pc, m, n - 1);
      SoloOk(s, pc, n - 1);
    }
  }

  // A refund cut off after any number of steps, whatever the answers were, is
  // completed by one undisturbed retry: the price has been credited exactly once.
  lemma CutOffRefundIsCompleted(w: World, actions: seq<Action>, i: Idem, envs: seq<Env>)
    requires Initial(w) && AtSomeStage(Run(w, actions).shared, i)
    ensures var s := Run(w, actions).shared;
      var cut := Solo(s, RefundLoad(i), envs).0;
      var (s', pc) := Solo(cut, RefundLoad(i), AllOk(5));
      && Is(s', i, Refunded) && i in s'.credits && s'.credits[i] == s.price
      && pc == Done(if Is(cut, i, Refunded) then Error else RefundDone(i))
  {
    hide Run, Solo, AtSomeStage;
    RunKeepsInv(w, actions);
    var s := Run(w, actions).shared;
    StageStays(s, i, envs);
    var cut := Solo(s, RefundLoad(i), envs).0;
    RetryCompletes(cut, i);
    PriceFixed(s, RefundLoad(i), envs);
  }

  lemma {:induction false} PriceFixed(s: Shared, pc: Pc, envs: seq<Env>)
    requires WellFormed(pc)
    ensures Solo(s, pc, envs).0.price == s.price
    decreases |envs|
  {
    if envs != [] { PriceFixed(s, pc, envs[..|envs| - 1]); }
  }

  // ---------- Purchases ----------

  // The purchase as it ends: owned, confirmed, and charged once.
  function Finished(s: Shared, i: Idem): Shared {
    s.(ent := Some(Ent(Bought(i), true)), recs := s.recs[i := Confirmed],
       debits := if i in s.debits then s.debits else s.debits[i := s.price])
  }

  // A purchase interrupted anywhere between its reservation and its confirmation is
  // finished by a retry under its own key, and by any other create for the item.
  lemma CreateResumes(s: Shared, i: Idem, j: Idem)
    requires PendingFor(s, i)
    ensures Solo(s, Reserving(j), AllOk(5)) == (Finished(s, i), Done(Owned(i)))
  {
    hide Solo;
    var pc := Reserving(j);
    SoloOk(s, pc, 0);
    SoloOk(s, pc, 1);
    SoloOk(s, pc, 2);
    SoloOk(s, pc, 3);
    SoloOk(s, pc, 4);
    assert Solo(s, pc, AllOk(2)) == (s, ReadRec(j, s.ent.value));
    assert Solo(s, pc, AllOk(3)) == (s, Debiting(i));
    assert Solo(s, pc, AllOk(4)) == (Debit(s, i), Confirming(i));
  }

  // And by a refresh.
  lemma RefreshResumes(s: Shared, i: Idem)
    requires PendingFor(s, i)
    ensures Solo(s, RefreshLoad(i), AllOk(3)) == (Finished(s, i), Done(Owned(i)))
  {
    hide Solo;
    var pc := RefreshLoad(i);
    SoloOk(s, pc, 0);
    SoloOk(s, pc, 1);
    SoloOk(s, pc, 2);
    assert Solo(s, pc, AllOk(1)) == (s, Debiting(i));
    assert Solo(s, pc, AllOk(2)) == (Debit(s, i), Confirming(i));
  }

  // A refresh of anything else writes nothing and reports the row.
  lemma RefreshReports(s: Shared, i: Idem)
    requires i in s.recs && s.recs[i] != Processing
    ensures Solo(s, RefreshLoad(i), AllOk(1)) == (s, Done(Read(s.recs[i])))
  {
    hide Solo;
    SoloOk(s, RefreshLoad(i), 0);
  }

  // A create for an item already bought writes nothing: its own key is answered as
  // owned, any other is refused.
  lemma OwnedIsAnswered(s: Shared, i: Idem, j: Idem)
    requires s.ent == Some(Ent(Bought(i), true)) && Is(s, i, Confirmed)
    ensures Solo(s, Reserving(j), AllOk(3)) == (s, Done(if i == j then Owned(i) else Error))
  {
    hide Solo;
    var pc := Reserving(j);
    SoloOk(s, pc, 0);
    SoloOk(s, pc, 1);
    SoloOk(s, pc, 2);
    assert Solo(s, pc, AllOk(2)) == (s, ReadRec(j, s.ent.value));
  }

  // A granted item is nobody's purchase.
  lemma GrantedIsRefused(s: Shared, j: Idem)
    requires s.ent.Some? && s.ent.value.owner.Granted?
    ensures Solo(s, Reserving(j), AllOk(2)) == (s, Done(Error))
  {
    hide Solo;
    SoloOk(s, Reserving(j), 0);
    SoloOk(s, Reserving(j), 1);
  }

  // A player without the funds is left as they were.
  lemma RejectedLeavesNothing(s: Shared, i: Idem)
    requires s.ent.None? && i !in s.recs && i !in s.debits
    ensures Solo(s, Reserving(i), [OK, REFUSAL, OK]) == (s, Done(Error))
  {
    hide Solo;
    var pc := Reserving(i);
    SoloLast(s, pc, [], OK);
    SoloLast(s, pc, [OK], REFUSAL);
    SoloLast(s, pc, [OK, REFUSAL], OK);
    assert [] + [OK] == [OK] && [OK] + [REFUSAL] == [OK, REFUSAL] && [OK, REFUSAL] + [OK] == [OK, REFUSAL, OK];
    assert Solo(s, pc, [OK]) == (Reserve(s, i), Debiting(i));
    assert Solo(s, pc, [OK, REFUSAL]) == (Reserve(s, i), Cancelling(i));
    assert Cancel(Reserve(s, i), i) == s;
  }

  // ---------- Answers ----------

  // No call reports an outcome on an answer it did not get.
  lemma NothingUnheardIsReported(s: Shared, pc: Pc, env: Env)
    requires WellFormed(pc) && !pc.Done? && env.reply != Landed
    ensures var next := Advance(s, pc, env).1; next.Done? ==> next.result == Error
  {
  }

  // A confirm answers owned exactly while its purchase still has the slot, whether it
  // comes first or finds the work done by another call.
  lemma ConfirmAnswers(s: Shared, i: Idem)
    requires RowsAgree(s)
    ensures var (s', pc) := Solo(s, Confirming(i), AllOk(3));
      && pc == Done(if Is(s, i, Processing) || Is(s, i, Confirmed) then Owned(i) else Error)
      && (pc.result.Owned? ==> s'.ent == Some(Ent(Bought(i), true)) && Is(s', i, Confirmed))
      && (!Is(s, i, Processing) ==> s' == s)
  {
    hide Solo;
    SoloOk(s, Confirming(i), 0);
    SoloOk(s, Confirming(i), 1);
    SoloOk(s, Confirming(i), 2);
  }

  const UNHEARD: Env := Env(Lost, false)

  // A close of ownership that landed without saying so is found by the re-read and
  // goes on to the credit.
  lemma UnheardCloseGoesOn(s: Shared, i: Idem)
    requires MoneyOk(s) && NotBegun(s, i)
    ensures Solo(s, BeginningRefund(i), [UNHEARD] + AllOk(3)) ==
      (s.(ent := None, recs := s.recs[i := Refunded], credits := Credited(s, i)), Done(RefundDone(i)))
  {
    hide Solo, Advance, AllOk, MoneyOk;
    var pc := BeginningRefund(i);
    assert [] + [UNHEARD] == [UNHEARD];
    SoloLast(s, pc, [], UNHEARD);
    SoloNone(s, pc);
    UnheardSteps(s, i);
    SoloSplit(s, pc, [UNHEARD], AllOk(3));
    var closed := BeginRefund(s, i);
    RereadGoesOn(closed, i);
    assert closed.recs[i := Refunded] == s.recs[i := Refunded];
    assert Credited(closed, i) == Credited(s, i);
  }

  lemma SoloNone(s: Shared, pc: Pc)
    requires WellFormed(pc)
    ensures Solo(s, pc, []) == (s, pc)
  {
  }

  lemma RereadGoesOn(s: Shared, i: Idem)
    requires Is(s, i, Refunding)
    ensures Solo(s, RefundReread(i), AllOk(3)) ==
      (s.(recs := s.recs[i := Refunded], credits := Credited(s, i)), Done(RefundDone(i)))
  {
    hide Solo, Advance;
    SoloOk(s, RefundReread(i), 0);
    SoloOk(s, RefundReread(i), 1);
    SoloOk(s, RefundReread(i), 2);
    ResumedSteps(s, i);
    JoinSteps(s, i);
  }

  lemma UnheardSteps(s: Shared, i: Idem)
    requires NotBegun(s, i)
    ensures var closed := BeginRefund(s, i);
      && Is(closed, i, Refunding)
      && Advance(s, BeginningRefund(i), UNHEARD) == (closed, RefundReread(i))
      && Advance(closed, RefundReread(i), OK) == (closed, Crediting(i))
  {
  }

  // A refund that another call overtook is answered as done without a second credit,
  // from whichever step it had reached.
  lemma OvertakenRefund(s: Shared, i: Idem)
    requires MoneyOk(s) && Is(s, i, Refunded)
    ensures Solo(s, Crediting(i), AllOk(3)) == (s, Done(RefundDone(i)))
    ensures Solo(s, Completing(i), AllOk(2)) == (s, Done(RefundDone(i)))
  {
    hide Solo;
    SoloOk(s, Crediting(i), 0);
    SoloOk(s, Crediting(i), 1);
    SoloOk(s, Crediting(i), 2);
    SoloOk(s, Completing(i), 0);
    SoloOk(s, Completing(i), 1);
  }

  // And one whose ownership another call closed joins in at the credit.
  lemma OvertakenClose(s: Shared, i: Idem)
    requires MoneyOk(s) && Is(s, i, Refunding)
    ensures Solo(s, BeginningRefund(i), AllOk(4)) ==
      (s.(recs := s.recs[i := Refunded], credits := Credited(s, i)), Done(RefundDone(i)))
  {
    hide Solo, Advance;
    var pc := BeginningRefund(i);
    SoloOk(s, pc, 0);
    SoloOk(s, pc, 1);
    SoloOk(s, pc, 2);
    SoloOk(s, pc, 3);
    ResumedSteps(s, i);
    JoinSteps(s, i);
  }

  lemma JoinSteps(s: Shared, i: Idem)
    requires Is(s, i, Refunding)
    ensures Advance(s, BeginningRefund(i), OK) == (s, RefundReread(i))
    ensures Advance(s, RefundReread(i), OK) == (s, Crediting(i))
  {
  }
}
