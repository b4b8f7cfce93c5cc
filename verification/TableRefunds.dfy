// How much a table that was cleaned up has refunded, exactly.
module TableRefunds {
  import opened Sums
  import opened Replies
  import opened TableCleanup

  // ---------- Who paid, and when ----------

  predicate Reads(pc: Pc) { !pc.DeletingRoom? && !pc.Done? }

  // Nothing refers to a version beyond the archived one.
  ghost predicate InTime(w: World) {
    w.shared.archived.Some? ==>
      && (forall p :: p in w.shared.refunds ==> w.shared.refunds[p].version <= w.shared.archived.value)
      && (forall p :: p in w.shared.rows ==> w.shared.rows[p].version <= w.shared.archived.value)
      && (forall p :: p in w.shared.cashouts ==> w.shared.cashouts[p].version <= w.shared.archived.value)
      && (forall t :: t in w.threads && Reads(w.threads[t]) ==> w.threads[t].version <= w.shared.archived.value)
  }

  lemma VersionsExist(w: World)
    requires Inv(w)
    ensures forall p :: p in w.shared.refunds ==> w.shared.refunds[p].version <= Version(w.shared)
    ensures forall p :: p in w.shared.rows ==> w.shared.rows[p].version <= Version(w.shared)
    ensures forall p :: p in w.shared.cashouts ==> w.shared.cashouts[p].version <= Version(w.shared)
    ensures forall t :: t in w.threads && Reads(w.threads[t]) ==> w.threads[t].version <= Version(w.shared)
    ensures w.shared.archived.Some? ==> w.shared.archived.value <= Version(w.shared)
  {
    hide CoveredUpTo;
    forall t | t in w.threads && Reads(w.threads[t])
      ensures w.threads[t].version <= Version(w.shared)
    {
      assert PcOk(w.shared, w.threads[t]);
    }
  }

  // A call works at the version it read, and archives only if that is the last.
  lemma AdvanceVersions(s: Shared, pc: Pc, reply: Reply)
    requires s.states != []
    ensures var x := Advance(s, pc, reply);
      && x.0.states == s.states
      && (Reads(x.1) ==> Reads(pc) && x.1.version == pc.version)
      && (forall p :: p in x.0.refunds ==>
            (p in s.refunds && x.0.refunds[p] == s.refunds[p]) || (Reads(pc) && x.0.refunds[p].version == pc.version))
      && (forall p :: p in x.0.rows ==>
            (p in s.rows && x.0.rows[p].version == s.rows[p].version) || (Reads(pc) && x.0.rows[p].version == pc.version))
      && (forall p :: p in x.0.cashouts ==>
            (p in s.cashouts && x.0.cashouts[p] == s.cashouts[p]) || (Reads(pc) && x.0.cashouts[p].version == pc.version))
      && (x.0.archived == s.archived || (x.0.archived == Some(Version(s)) && Reads(pc) && pc.version == Version(s)))
  {
    if pc.Refunding? { RefundVersions(s, pc, reply); } else { assert Advance(s, pc, reply).0.refunds == s.refunds; }
    if pc.Recording? || pc.Resolving? { RowVersions(s, pc, reply); } else { assert Advance(s, pc, reply).0.rows == s.rows; }
    if pc.CashingOut? { CashVersions(s, pc, reply); } else { assert Advance(s, pc, reply).0.cashouts == s.cashouts; }
    hide OnRefunding, OnRecording, OnCashingOut, OnResolving, Post, Resolve;
  }

  lemma RefundVersions(s: Shared, pc: Pc, reply: Reply)
    requires pc.Refunding?
    ensures var x := Advance(s, pc, reply);
      && x.0 == s.(refunds := x.0.refunds) && (Reads(x.1) ==> x.1.version == pc.version)
      && forall p :: p in x.0.refunds ==> (p in s.refunds && x.0.refunds[p] == s.refunds[p]) || x.0.refunds[p].version == pc.version
  {
  }

  lemma RowVersions(s: Shared, pc: Pc, reply: Reply)
    requires pc.Recording? || pc.Resolving?
    ensures var x := Advance(s, pc, reply);
      && x.0 == s.(rows := x.0.rows) && (Reads(x.1) ==> x.1.version == pc.version)
      && forall p :: p in x.0.rows ==> (p in s.rows && x.0.rows[p].version == s.rows[p].version) || x.0.rows[p].version == pc.version
  {
  }

  lemma CashVersions(s: Shared, pc: Pc, reply: Reply)
    requires pc.CashingOut?
    ensures var x := Advance(s, pc, reply);
      && x.0 == s.(cashouts := x.0.cashouts) && (Reads(x.1) ==> x.1.version == pc.version)
      && forall p :: p in x.0.cashouts ==> (p in s.cashouts && x.0.cashouts[p] == s.cashouts[p]) || x.0.cashouts[p].version == pc.version
  {
  }

  // The retry job pays at the version of the row.
  lemma RetryVersions(s: Shared, p: PlayerId, credit: Reply, resolve: Reply)
    ensures var s' := Retry(s, p, credit, resolve);
      && s' == s.(rows := s'.rows, cashouts := s'.cashouts)
      && (forall q :: q in s'.rows ==> q in s.rows && s'.rows[q].version == s.rows[q].version)
      && (forall q :: q in s'.cashouts ==>
            (q in s.cashouts && s'.cashouts[q] == s.cashouts[q]) || (q in s.rows && s'.cashouts[q].version == s.rows[q].version))
  {
  }

  lemma InTimeStep(w: World, a: Action)
    requires Inv(w) && InTime(w)
    ensures InTime(Step(w, a))
  {
    VersionsExist(w);
    StatesExist(w);
    hide Inv, Advance, Retry;
    if a.Go? && a.t in w.threads { AdvanceVersions(w.shared, w.threads[a.t], a.reply); }
    if a.Reconcile? { RetryVersions(w.shared, a.player, a.credit, a.resolve); }
  }

  lemma {:induction false} InTimeRun(w: World, actions: seq<Action>)
    requires Inv(w) && InTime(w)
    ensures Inv(Run(w, actions)) && InTime(Run(w, actions))
    decreases |actions|
  {
    hide Step, Inv, InTime, Forward;
    if actions != [] {
      InTimeRun(w, actions[..|actions| - 1]);
      StepKeeps(Run(w, actions[..|actions| - 1]), actions[|actions| - 1]);
      InTimeStep(Run(w, actions[..|actions| - 1]), actions[|actions| - 1]);
    }
  }

  // ---------- What the actions in between did ----------

  ghost predicate OneSeatEach(seats: seq<Seat>) {
    forall x, y :: x in seats && y in seats && x.player == y.player ==> x == y
  }

  function StackOf(seats: seq<Seat>, p: PlayerId): int {
    if seats == [] then 0
    else if seats[0].player == p then seats[0].stack
    else StackOf(seats[1..], p)
  }

  lemma {:induction false} StackIs(seats: seq<Seat>, seat: Seat)
    requires OneSeatEach(seats) && seat in seats
    ensures StackOf(seats, seat.player) == seat.stack
    decreases |seats|
  {
    if seats[0].player != seat.player {
      assert forall x :: x in seats[1..] ==> x in seats;
      assert seats == [seats[0]] + seats[1..];
      StackIs(seats[1..], seat);
    } else {
      assert seats[0] in seats;
    }
  }

  // What the action that made version k + 1 did to the player's stack.
  function Change(states: seq<seq<Seat>>, p: PlayerId, k: nat): int
    requires k + 1 < |states|
  {
    StackOf(states[k + 1], p) - StackOf(states[k], p)
  }

  // What all actions from version v to version a did to it.
  function NetChange(states: seq<seq<Seat>>, p: PlayerId, v: nat, a: nat): int
    requires v <= a < |states|
  {
    if v == a then 0 else NetChange(states, p, v, a - 1) + Change(states, p, a - 1)
  }

  lemma {:induction false} NetIsDifference(states: seq<seq<Seat>>, p: PlayerId, v: nat, a: nat)
    requires v <= a < |states|
    ensures NetChange(states, p, v, a) == StackOf(states[a], p) - StackOf(states[v], p)
    decreases a
  {
    if v < a { NetIsDifference(states, p, v, a - 1); }
  }

  lemma {:induction false} NoChange(states: seq<seq<Seat>>, p: PlayerId, v: nat, a: nat)
    requires v <= a < |states| && forall k :: v <= k < a ==> Change(states, p, k) == 0
    ensures NetChange(states, p, v, a) == 0
    decreases a
  {
    if v < a { NoChange(states, p, v, a - 1); }
  }

  // ---------- How much a refund is ----------

  ghost predicate Archived(w: World, seat: Seat) {
    && Inv(w) && InTime(w) && w.shared.archived.Some?
    && seat.stack > 0 && seat in w.shared.states[w.shared.archived.value]
    && forall v :: 0 <= v < |w.shared.states| ==> OneSeatEach(w.shared.states[v])
  }

  // What was written for the seat's player out of a stack some sweep read, against
  // the stack that was archived: the actions in between make the difference.
  lemma DifferenceIsNetChange(w: World, seat: Seat, amount: int, version: nat)
    requires Archived(w, seat) && version <= w.shared.archived.value && FromSeat(w.shared, seat.player, amount, version)
    ensures w.shared.archived.Some? && version <= w.shared.archived.value < |w.shared.states|
    ensures seat.stack - amount == NetChange(w.shared.states, seat.player, version, w.shared.archived.value)
  {
    var s := w.shared;
    StackIs(s.states[version], Seat(seat.player, amount));
    StackIs(s.states[s.archived.value], seat);
    NetIsDifference(s.states, seat.player, version, s.archived.value);
  }

  lemma ArchivedIsCovered(w: World, seat: Seat)
    requires Archived(w, seat)
    ensures (w.shared.mode == Sandbox && seat.player in w.shared.refunds) || (w.shared.mode == Real && seat.player in w.shared.rows)
  {
    var last := w.shared.states[w.shared.archived.value];
    var i :| 0 <= i < |last| && last[i] == seat;
    assert Covered(w.shared, last[i]);
  }

  // A refund differs from the archived stack by exactly what the actions between
  // the version its sweep had read and the archived one did to the player's stack:
  // it is right if and only if they cancel out.
  lemma RefundIsExactIff(w: World, seat: Seat)
    requires Archived(w, seat) && w.shared.mode == Sandbox
    ensures w.shared.archived.Some? && seat.player in w.shared.refunds
    ensures var s, paid := w.shared, w.shared.refunds[seat.player];
      && paid.version <= s.archived.value < |s.states|
      && seat.stack - paid.amount == NetChange(s.states, seat.player, paid.version, s.archived.value)
      && (paid.amount == seat.stack <==> NetChange(s.states, seat.player, paid.version, s.archived.value) == 0)
  {
    ArchivedIsCovered(w, seat);
    var paid := w.shared.refunds[seat.player];
    DifferenceIsNetChange(w, seat, paid.amount, paid.version);
  }

  // The same of a real-money table, where a row and its payout are written apart:
  // each differs from the archived stack by what the actions since its own sweep's
  // reading did, and they agree if and only if those come to the same.
  lemma SettlementIsExactIff(w: World, seat: Seat)
    requires Archived(w, seat) && w.shared.mode == Real
    ensures w.shared.archived.Some? && seat.player in w.shared.rows
    ensures var s, row := w.shared, w.shared.rows[seat.player];
      && row.version <= s.archived.value < |s.states|
      && seat.stack - row.amount == NetChange(s.states, seat.player, row.version, s.archived.value)
      && (row.amount == seat.stack <==> NetChange(s.states, seat.player, row.version, s.archived.value) == 0)
    ensures seat.player in w.shared.cashouts ==>
      var s, row, paid := w.shared, w.shared.rows[seat.player], w.shared.cashouts[seat.player];
      && paid.version <= s.archived.value < |s.states|
      && seat.stack - paid.amount == NetChange(s.states, seat.player, paid.version, s.archived.value)
      && (paid.amount == row.amount <==>
            NetChange(s.states, seat.player, paid.version, s.archived.value) ==
            NetChange(s.states, seat.player, row.version, s.archived.value))
  {
    hide NetChange, StackOf;
    ArchivedIsCovered(w, seat);
    var row := w.shared.rows[seat.player];
    DifferenceIsNetChange(w, seat, row.amount, row.version);
    if seat.player in w.shared.cashouts {
      var paid := w.shared.cashouts[seat.player];
      DifferenceIsNetChange(w, seat, paid.amount, paid.version);
    }
  }

  // No action on the player's stack in between: the refund is right.
  lemma UntouchedStackIsExact(w: World, seat: Seat)
    requires Archived(w, seat) && w.shared.mode == Sandbox
    ensures w.shared.archived.Some? && seat.player in w.shared.refunds
    ensures var s, paid := w.shared, w.shared.refunds[seat.player];
      && paid.version <= s.archived.value < |s.states|
      && ((forall k :: paid.version <= k < s.archived.value ==> Change(s.states, seat.player, k) == 0) ==> paid.amount == seat.stack)
  {
    hide Archived, NetChange, Change;
    RefundIsExactIff(w, seat);
    var s, paid := w.shared, w.shared.refunds[seat.player];
    if forall k :: paid.version <= k < s.archived.value ==> Change(s.states, seat.player, k) == 0 {
      NoChange(s.states, seat.player, paid.version, s.archived.value);
    }
  }

  // What anybody can see to: once a sweep has read the table, no player acts.
  ghost predicate NoneActs(actions: seq<Action>) { forall a :: a in actions ==> !a.Act? }

  ghost predicate AllCurrent(w: World) {
    && w.shared.states != []
    && (forall p :: p in w.shared.refunds ==> w.shared.refunds[p].version == Version(w.shared))
    && (forall p :: p in w.shared.rows ==> w.shared.rows[p].version == Version(w.shared))
    && (forall p :: p in w.shared.cashouts ==> w.shared.cashouts[p].version == Version(w.shared))
    && (forall t :: t in w.threads && Reads(w.threads[t]) ==> w.threads[t].version == Version(w.shared))
    && (w.shared.archived.Some? ==> w.shared.archived.value == Version(w.shared))
  }

  lemma CurrentStep(w: World, a: Action)
    requires AllCurrent(w) && !a.Act?
    ensures AllCurrent(Step(w, a))
  {
    hide Advance, Retry;
    if a.Go? && a.t in w.threads { AdvanceVersions(w.shared, w.threads[a.t], a.reply); }
    if a.Reconcile? { RetryVersions(w.shared, a.player, a.credit, a.resolve); }
  }

  lemma {:induction false} CurrentRun(w: World, actions: seq<Action>)
    requires AllCurrent(w) && NoneActs(actions)
    ensures AllCurrent(Run(w, actions))
    decreases |actions|
  {
    hide Step, AllCurrent;
    if actions != [] {
      var before := actions[..|actions| - 1];
      assert forall a :: a in before ==> a in actions;
      assert actions[|actions| - 1] in actions;
      CurrentRun(w, before);
      CurrentStep(Run(w, before), actions[|actions| - 1]);
    }
  }

  // Then everything written for an archived seat is the archived stack.
  lemma QuietTableIsExact(w: World, actions: seq<Action>, seat: Seat)
    requires Inv(w) && w.threads == map[] && w.shared.archived.None?
    requires w.shared.refunds == map[] && w.shared.rows == map[] && w.shared.cashouts == map[]
    requires NoneActs(actions) && Archived(Run(w, actions), seat)
    ensures var s := Run(w, actions).shared;
      && (s.mode == Sandbox ==> seat.player in s.refunds && s.refunds[seat.player].amount == seat.stack)
      && (s.mode == Real ==> seat.player in s.rows && s.rows[seat.player].amount == seat.stack)
      && (s.mode == Real && seat.player in s.cashouts ==> s.cashouts[seat.player].amount == seat.stack)
  {
    hide Run, Inv, Archived;
    assert w.shared.states != [] by { StatesExist(w); }
    CurrentRun(w, actions);
    var x := Run(w, actions);
    if x.shared.mode == Sandbox { RefundIsExactIff(x, seat); }
    if x.shared.mode == Real { SettlementIsExactIff(x, seat); }
  }

  lemma StatesExist(w: World)
    requires Inv(w)
    ensures w.shared.states != []
  {
  }

  // And it stands: no later sweep pays the difference.
  lemma {:induction false} RefundStands(w: World, actions: seq<Action>, p: PlayerId)
    requires Inv(w) && p in w.shared.refunds
    ensures var s := Run(w, actions).shared; p in s.refunds && s.refunds[p] == w.shared.refunds[p]
  {
    RunKeeps(w, actions);
  }

  // ---------- A run that refunds the wrong amount ----------

  // A sweep refunds x; the player acts and holds y, so that sweep cannot archive;
  // the next one can.
  function StaleSweep(p: PlayerId, y: int): seq<Action> {
    [Sweep(1), Go(1, Landed), Go(1, Landed), Act([Seat(p, y)])]
  }

  function NextSweep(): seq<Action> {
    [Sweep(2), Go(2, Landed), Go(2, Landed), Go(2, Landed), Go(2, Landed)]
  }

  lemma RunLast(w: World, actions: seq<Action>, a: Action)
    ensures Run(w, actions + [a]) == Step(Run(w, actions), a)
    ensures Run(w, []) == w
  {
    hide Step;
    assert (actions + [a])[..|actions|] == actions;
  }

  lemma AfterStaleSweep(p: PlayerId, x: int, y: int)
    requires x > 0
    ensures Run(Opened(Sandbox, [Seat(p, x)], true), StaleSweep(p, y)) ==
      World(Shared(Sandbox, [[Seat(p, x)], [Seat(p, y)]], None, true, map[p := Paid(x, 0)], map[], map[]),
        map[1 := Refunding(0, [Seat(p, x)], 1, false)])
  {
    hide Run;
    var w := Opened(Sandbox, [Seat(p, x)], true);
    RunLast(w, [], Sweep(1));
    RunLast(w, [] + [Sweep(1)], Go(1, Landed));
    RunLast(w, [] + [Sweep(1)] + [Go(1, Landed)], Go(1, Landed));
    RunLast(w, [] + [Sweep(1)] + [Go(1, Landed)] + [Go(1, Landed)], Act([Seat(p, y)]));
    assert [] + [Sweep(1)] + [Go(1, Landed)] + [Go(1, Landed)] + [Act([Seat(p, y)])] == StaleSweep(p, y);
    var w2 := Step(Step(w, Sweep(1)), Go(1, Landed));
    assert w2.threads == map[1 := Refunding(0, [Seat(p, x)], 0, false)];
    var w3 := Step(w2, Go(1, Landed));
    assert w3.threads == map[1 := Refunding(0, [Seat(p, x)], 1, false)];
    assert w3.shared.refunds == map[p := Paid(x, 0)];
  }

  // For any two stacks, the table is archived at y with x refunded.
  lemma StaleRefundHappens(p: PlayerId, x: int, y: int)
    requires x > 0 && y > 0
    ensures var s := Run(Run(Opened(Sandbox, [Seat(p, x)], true), StaleSweep(p, y)), NextSweep()).shared;
      s.archived == Some(1) && s.states == [[Seat(p, x)], [Seat(p, y)]] && s.refunds == map[p := Paid(x, 0)]
  {
    hide Run;
    AfterStaleSweep(p, x, y);
    var w := Run(Opened(Sandbox, [Seat(p, x)], true), StaleSweep(p, y));
    RunLast(w, [], Sweep(2));
    RunLast(w, [] + [Sweep(2)], Go(2, Landed));
    RunLast(w, [] + [Sweep(2)] + [Go(2, Landed)], Go(2, Landed));
    RunLast(w, [] + [Sweep(2)] + [Go(2, Landed)] + [Go(2, Landed)], Go(2, Landed));
    RunLast(w, [] + [Sweep(2)] + [Go(2, Landed)] + [Go(2, Landed)] + [Go(2, Landed)], Go(2, Landed));
    assert [] + [Sweep(2)] + [Go(2, Landed)] + [Go(2, Landed)] + [Go(2, Landed)] + [Go(2, Landed)] == NextSweep();
    var w1 := Step(w, Sweep(2));
    assert w1.threads[2] == LoadingRoom(1, [Seat(p, y)]);
    var w3 := Step(Step(w1, Go(2, Landed)), Go(2, Landed));
    assert w3.threads[2] == Refunding(1, [Seat(p, y)], 1, false) && w3.shared == w.shared;
    var w4 := Step(w3, Go(2, Landed));
    assert w4.threads[2] == Archiving(1, [Seat(p, y)]) && w4.shared == w.shared;
  }

  // A real-money sweep records x and fails to pay it; the player acts and holds y;
  // the next sweep finds the row, pays y under its key and archives.
  function StaleRecord(p: PlayerId, y: int): seq<Action> {
    [Sweep(1), Go(1, Landed), Go(1, Landed), Go(1, Refused), Act([Seat(p, y)])]
  }

  function NextPayout(): seq<Action> {
    [Sweep(2), Go(2, Landed), Go(2, Landed), Go(2, Landed), Go(2, Landed), Go(2, Landed), Go(2, Landed)]
  }

  lemma AfterStaleRecord(p: PlayerId, x: int, y: int)
    requires x > 0
    ensures Run(Opened(Real, [Seat(p, x)], true), StaleRecord(p, y)) ==
      World(Shared(Real, [[Seat(p, x)], [Seat(p, y)]], None, true, map[], map[p := Row(x, 0, false)], map[]),
        map[1 := Recording(0, [Seat(p, x)], 1, false)])
  {
    hide Run;
    var w := Opened(Real, [Seat(p, x)], true);
    RunLast(w, [], Sweep(1));
    RunLast(w, [] + [Sweep(1)], Go(1, Landed));
    RunLast(w, [] + [Sweep(1)] + [Go(1, Landed)], Go(1, Landed));
    RunLast(w, [] + [Sweep(1)] + [Go(1, Landed)] + [Go(1, Landed)], Go(1, Refused));
    RunLast(w, [] + [Sweep(1)] + [Go(1, Landed)] + [Go(1, Landed)] + [Go(1, Refused)], Act([Seat(p, y)]));
    assert [] + [Sweep(1)] + [Go(1, Landed)] + [Go(1, Landed)] + [Go(1, Refused)] + [Act([Seat(p, y)])] == StaleRecord(p, y);
    var w2 := Step(Step(w, Sweep(1)), Go(1, Landed));
    assert w2.threads == map[1 := Recording(0, [Seat(p, x)], 0, false)];
    var w3 := Step(w2, Go(1, Landed));
    assert w3.threads == map[1 := CashingOut(0, [Seat(p, x)], 0, false)] && w3.shared.rows == map[p := Row(x, 0, false)];
    var w4 := Step(w3, Go(1, Refused));
    assert w4.threads == map[1 := Recording(0, [Seat(p, x)], 1, false)];
  }

  // For any two stacks: the row says x, y was paid, and the table is archived at y.
  lemma PayoutMayDifferFromRow(p: PlayerId, x: int, y: int)
    requires x > 0 && y > 0
    ensures var s := Run(Run(Opened(Real, [Seat(p, x)], true), StaleRecord(p, y)), NextPayout()).shared;
      && s.archived == Some(1) && s.states == [[Seat(p, x)], [Seat(p, y)]]
      && s.rows == map[p := Row(x, 0, true)] && s.cashouts == map[p := Paid(y, 1)]
  {
    hide Run;
    AfterStaleRecord(p, x, y);
    var w := Run(Opened(Real, [Seat(p, x)], true), StaleRecord(p, y));
    var seats := [Seat(p, y)];
    var w1 := Step(w, Sweep(2));
    assert w1.threads[2] == LoadingRoom(1, seats);
    var w3 := Step(Step(w1, Go(2, Landed)), Go(2, Landed));
    assert w3.threads[2] == CashingOut(1, seats, 0, false) && w3.shared == w.shared;
    var w5 := Step(Step(w3, Go(2, Landed)), Go(2, Landed));
    assert w5.threads[2] == Recording(1, seats, 1, false);
    assert w5.shared.rows == map[p := Row(x, 0, true)] && w5.shared.cashouts == map[p := Paid(y, 1)];
    var w6 := Step(w5, Go(2, Landed));
    assert w6.threads[2] == Archiving(1, seats) && w6.shared == w5.shared;
    SevenSteps(w);
  }

  lemma SevenSteps(w: World)
    ensures var g := Go(2, Landed);
      Run(w, NextPayout()) == Step(Step(Step(Step(Step(Step(Step(w, Sweep(2)), g), g), g), g), g), g)
  {
    hide Run, Step;
    var g := Go(2, Landed);
    RunLast(w, [], Sweep(2));
    RunLast(w, [] + [Sweep(2)], g);
    RunLast(w, [] + [Sweep(2)] + [g], g);
    RunLast(w, [] + [Sweep(2)] + [g] + [g], g);
    RunLast(w, [] + [Sweep(2)] + [g] + [g] + [g], g);
    RunLast(w, [] + [Sweep(2)] + [g] + [g] + [g] + [g], g);
    RunLast(w, [] + [Sweep(2)] + [g] + [g] + [g] + [g] + [g], g);
    assert [] + [Sweep(2)] + [g] + [g] + [g] + [g] + [g] + [g] == NextPayout();
  }
}
