// When a debit keeps its purchase's history row, exactly.
module CosmeticsDebits {
  import opened Sums
  import opened Cosmetics
  import opened CosmeticsSafety

  // The wallet has charged a purchase that left no history.
  ghost predicate Orphan(s: Shared, i: Idem) { i in s.debits && i !in s.recs }

  ghost predicate Moves(w: World, a: Action, pc: Pc) {
    a.Go? && a.t in w.threads && w.threads[a.t] == pc && a.env.reply.Applied()
  }

  // The rows are cancelled under a debit, or a debit lands where the rows are gone.
  ghost predicate CancelsDebited(w: World, a: Action, i: Idem) {
    Moves(w, a, Cancelling(i)) && PendingFor(w.shared, i) && i in w.shared.debits
  }

  ghost predicate DebitsBare(w: World, a: Action, i: Idem) { Moves(w, a, Debiting(i)) && i !in w.shared.recs }

  // One step loses a debit's row exactly in these two ways.
  lemma OrphanedIff(w: World, a: Action, i: Idem)
    requires Inv(w) && !Orphan(w.shared, i)
    ensures Orphan(Step(w, a).shared, i) <==> CancelsDebited(w, a, i) || DebitsBare(w, a, i)
  {
    hide RowsAgree, MoneyOk;
    if a.Go? && a.t in w.threads {
      assert PcOk(w.shared, w.threads[a.t]);
      RefundedIsDebited(w.shared, i);
    }
  }

  // A row can only vanish while it is processing.
  lemma RefundedIsDebited(s: Shared, i: Idem)
    requires MoneyOk(s)
    ensures i in s.recs && i !in s.debits ==> s.recs[i] == Processing
  {
  }

  // Over a run: the debit of i has its row at every moment.
  ghost predicate AlwaysKept(w: World, actions: seq<Action>, i: Idem)
    decreases |actions|
  {
    !Orphan(Run(w, actions).shared, i) && (actions != [] ==> AlwaysKept(w, actions[..|actions| - 1], i))
  }

  ghost predicate NeverLoses(w: World, actions: seq<Action>, i: Idem)
    decreases |actions|
  {
    actions == [] ||
    var before, last := actions[..|actions| - 1], actions[|actions| - 1];
    && NeverLoses(w, before, i)
    && !CancelsDebited(Run(w, before), last, i) && !DebitsBare(Run(w, before), last, i)
  }

  // A run keeps the row at every moment if and only if it takes neither step.
  lemma {:induction false} AlwaysKeptIff(w: World, actions: seq<Action>, i: Idem)
    requires Inv(w) && !Orphan(w.shared, i)
    ensures AlwaysKept(w, actions, i) <==> NeverLoses(w, actions, i)
    decreases |actions|
  {
    hide Step, Inv, CancelsDebited, DebitsBare, Orphan;
    if actions != [] {
      var before, last := actions[..|actions| - 1], actions[|actions| - 1];
      AlwaysKeptIff(w, before, i);
      RunKeepsInv(w, before);
      if AlwaysKept(w, before, i) {
        NowKept(w, before, i);
        OrphanedIff(Run(w, before), last, i);
      }
    }
  }

  lemma NowKept(w: World, actions: seq<Action>, i: Idem)
    requires AlwaysKept(w, actions, i)
    ensures !Orphan(Run(w, actions).shared, i)
  {
  }

  // ---------- What callers can see to ----------

  // The call has gone on to the debit of i, and not past its outcome.
  predicate Working(pc: Pc, i: Idem) { pc == Debiting(i) || pc == Cancelling(i) }

  // A create, a resume or a refresh goes on to the debit of i.
  ghost predicate Enters(w: World, a: Action, i: Idem) {
    && a.Go? && a.t in w.threads && w.threads[a.t] != Debiting(i)
    && a.t in Step(w, a).threads && Step(w, a).threads[a.t] == Debiting(i)
  }

  // It does so while another call is at it and the debit has not landed yet.
  ghost predicate Overlaps(w: World, a: Action, i: Idem) {
    Enters(w, a, i) && i !in w.shared.debits && exists u :: u in w.threads && u != a.t && Working(w.threads[u], i)
  }

  ghost predicate OneAtATime(w: World, actions: seq<Action>, i: Idem)
    decreases |actions|
  {
    actions == [] ||
    (OneAtATime(w, actions[..|actions| - 1], i) && !Overlaps(Run(w, actions[..|actions| - 1]), actions[|actions| - 1], i))
  }

  ghost predicate Orderly(w: World, i: Idem) {
    && !Orphan(w.shared, i)
    && (forall t :: t in w.threads && w.threads[t] == Debiting(i) ==> i in w.shared.recs)
    && (forall t :: t in w.threads && w.threads[t] == Cancelling(i) ==> i !in w.shared.debits)
    && (i !in w.shared.debits ==>
          forall t, u :: t in w.threads && u in w.threads && t != u && Working(w.threads[t], i) ==> !Working(w.threads[u], i))
  }

  lemma EntryFindsRow(w: World, a: Action, i: Idem)
    requires Inv(w) && Enters(w, a, i)
    ensures var s' := Step(w, a).shared;
      Is(s', i, Processing) && s'.debits == w.shared.debits && forall j :: j in w.shared.recs ==> j in s'.recs
  {
    hide RowsAgree, MoneyOk;
  }

  lemma OrderlyEntry(w: World, a: Action, i: Idem)
    requires Inv(w) && Orderly(w, i) && Enters(w, a, i) && !Overlaps(w, a, i)
    ensures Orderly(Step(w, a), i)
  {
    hide Inv, OnReserving, OnReadRec, OnRefreshLoad;
    EntryFindsRow(w, a, i);
  }

  lemma OrderlyWork(w: World, a: Action, i: Idem)
    requires Inv(w) && Orderly(w, i) && a.Go? && a.t in w.threads && Working(w.threads[a.t], i)
    ensures Orderly(Step(w, a), i)
  {
    hide Inv;
  }

  // Any other step neither debits i nor takes its row, and starts no work on it.
  lemma OtherSteps(w: World, a: Action, i: Idem)
    requires Inv(w) && !Enters(w, a, i) && !(a.Go? && a.t in w.threads && Working(w.threads[a.t], i))
    ensures var w' := Step(w, a);
      && (i in w'.shared.debits <==> i in w.shared.debits)
      && (i in w.shared.recs ==> i in w'.shared.recs)
      && (forall t :: t in w'.threads && Working(w'.threads[t], i) ==> t in w.threads && w.threads[t] == w'.threads[t])
  {
    hide RowsAgree, MoneyOk;
  }

  lemma OrderlyStep(w: World, a: Action, i: Idem)
    requires Inv(w) && Orderly(w, i) && !Overlaps(w, a, i)
    ensures Orderly(Step(w, a), i)
  {
    hide Inv, Step, Enters;
    if Enters(w, a, i) {
      OrderlyEntry(w, a, i);
    } else if a.Go? && a.t in w.threads && Working(w.threads[a.t], i) {
      OrderlyWork(w, a, i);
    } else {
      OtherSteps(w, a, i);
    }
  }

  lemma {:induction false} OrderlyRun(w: World, actions: seq<Action>, i: Idem)
    requires Inv(w) && Orderly(w, i) && OneAtATime(w, actions, i)
    ensures Orderly(Run(w, actions), i) && AlwaysKept(w, actions, i)
    decreases |actions|
  {
    hide Step, Inv, Overlaps;
    if actions != [] {
      var before := actions[..|actions| - 1];
      OrderlyRun(w, before, i);
      RunKeepsInv(w, before);
      OrderlyStep(Run(w, before), actions[|actions| - 1], i);
    }
  }

  // If no call goes on to the debit of a purchase while another one is between
  // that debit and its outcome, the debit has its history row at every moment.
  lemma OneCallAtATimeKeepsDebits(w: World, actions: seq<Action>, i: Idem)
    requires Initial(w) && OneAtATime(w, actions, i)
    ensures AlwaysKept(w, actions, i)
  {
    hide Run, AlwaysKept, OneAtATime;
    OrderlyRun(w, actions, i);
  }

  // What may follow an overlap: the other call is refused and cancels while this
  // one's debit lands in between.
  function Fatal(w: World, t: ThreadId, u: ThreadId): seq<Action>
    requires u in w.threads
  {
    if w.threads[u].Cancelling? then [Go(t, OK), Go(u, OK)] else [Go(u, REFUSAL), Go(t, OK), Go(u, OK)]
  }

  // And no weaker condition will do: from the first overlap of any run on, the
  // debit can lose its row.
  lemma OverlapCanLose(w: World, a: Action, i: Idem) returns (more: seq<Action>)
    requires Inv(w) && Overlaps(w, a, i)
    ensures Orphan(Run(Step(w, a), more).shared, i)
  {
    var u :| u in w.threads && u != a.t && Working(w.threads[u], i);
    var w' := Step(w, a);
    EntryFindsRow(w, a, i);
    StepKeepsInv(w, a);
    more := Fatal(w', a.t, u);
    if w'.threads[u].Cancelling? { LoseInTwo(w', a.t, u, i); } else { LoseInThree(w', a.t, u, i); }
  }

  lemma LoseInTwo(w: World, t: ThreadId, u: ThreadId, i: Idem)
    requires t != u && t in w.threads && u in w.threads && w.threads[t] == Debiting(i) && w.threads[u] == Cancelling(i)
    requires PendingFor(w.shared, i) && i !in w.shared.debits
    ensures Orphan(Run(w, [Go(t, OK), Go(u, OK)]).shared, i)
  {
    hide Run;
    RunLast(w, [], Go(t, OK));
    RunLast(w, [] + [Go(t, OK)], Go(u, OK));
    assert [] + [Go(t, OK)] + [Go(u, OK)] == [Go(t, OK), Go(u, OK)];
    var w1 := Step(w, Go(t, OK));
    assert w1.threads[u] == Cancelling(i) && PendingFor(w1.shared, i) && i in w1.shared.debits;
  }

  lemma LoseInThree(w: World, t: ThreadId, u: ThreadId, i: Idem)
    requires t != u && t in w.threads && u in w.threads && w.threads[t] == Debiting(i) && w.threads[u] == Debiting(i)
    requires PendingFor(w.shared, i) && i !in w.shared.debits
    ensures Orphan(Run(w, [Go(u, REFUSAL), Go(t, OK), Go(u, OK)]).shared, i)
  {
    hide Run;
    var w1 := Step(w, Go(u, REFUSAL));
    assert w1.shared == w.shared && w1.threads[u] == Cancelling(i) && w1.threads[t] == Debiting(i);
    LoseInTwo(w1, t, u, i);
    var two := [Go(t, OK), Go(u, OK)];
    RunLast(w, [], Go(u, REFUSAL));
    RunLast(w, [] + [Go(u, REFUSAL)], Go(t, OK));
    RunLast(w, [] + [Go(u, REFUSAL)] + [Go(t, OK)], Go(u, OK));
    RunLast(w1, [], Go(t, OK));
    RunLast(w1, [] + [Go(t, OK)], Go(u, OK));
    assert [] + [Go(t, OK)] + [Go(u, OK)] == two;
    assert [] + [Go(u, REFUSAL)] + [Go(t, OK)] + [Go(u, OK)] == [Go(u, REFUSAL), Go(t, OK), Go(u, OK)];
  }

  // The condition, both ways, for every run from the start.
  lemma DebitsKeepRowsIff(w: World, actions: seq<Action>, a: Action, i: Idem)
    requires Initial(w) && OneAtATime(w, actions, i)
    ensures AlwaysKept(w, actions, i)
    ensures Overlaps(Run(w, actions), a, i) ==> exists more :: Orphan(Run(Step(Run(w, actions), a), more).shared, i)
    ensures !Overlaps(Run(w, actions), a, i) ==> !Orphan(Step(Run(w, actions), a).shared, i)
  {
    hide Run, Step, Overlaps, AlwaysKept, OneAtATime;
    OrderlyRun(w, actions, i);
    RunKeepsInv(w, actions);
    if Overlaps(Run(w, actions), a, i) {
      var more := OverlapCanLose(Run(w, actions), a, i);
    } else {
      OrderlyStep(Run(w, actions), a, i);
    }
  }
}
