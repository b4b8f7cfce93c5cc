// One cosmetic bought with play money: a history row and an ownership row that
// move together through reserve, debit, confirm, cancel and refund, with calls
// interleaving, crashing and losing replies.
module Cosmetics {
  import opened Sums

  type ThreadId = nat

  // The idempotency key of a purchase. The request key, the purchase id and the
  // refund key are each derived from it one-to-one.
  type Idem = nat

  datatype Status = Processing | Confirmed | Refunding | Refunded
  datatype Owner = Bought(idem: Idem) | Granted
  datatype Ent = Ent(owner: Owner, active: bool)

  // The item's single ownership slot, its purchase history, and the wallet's
  // memory of debits and refund credits by key.
  datatype Shared = Shared(
    price: nat,
    ent: Option<Ent>,
    recs: map<Idem, Status>,
    debits: map<Idem, nat>,
    credits: map<Idem, nat>)

  // Rejected is the wallet's definitive refusal; Refused and Lost are the
  // ambiguous failures before and after the effect.
  datatype Reply = Landed | Refused | Lost | Rejected {
    predicate Applied() { this == Landed || this == Lost }
  }

  datatype Env = Env(reply: Reply, inUse: bool)

  // ---------- Two-row transactions ----------

  predicate CanReserve(s: Shared, i: Idem) { s.ent.None? && i !in s.recs }

  function Reserve(s: Shared, i: Idem): Shared {
    s.(ent := Some(Ent(Bought(i), false)), recs := s.recs[i := Processing])
  }

  predicate PendingFor(s: Shared, i: Idem) {
    i in s.recs && s.recs[i] == Processing && s.ent == Some(Ent(Bought(i), false))
  }

  function Confirm(s: Shared, i: Idem): Shared {
    s.(ent := Some(Ent(Bought(i), true)), recs := s.recs[i := Confirmed])
  }

  function Cancel(s: Shared, i: Idem): Shared {
    s.(ent := None, recs := s.recs - {i})
  }

  // Conditioned on the history row being confirmed and on the ownership row
  // naming this purchase, whatever its own status says.
  predicate CanBeginRefund(s: Shared, i: Idem) {
    i in s.recs && s.recs[i] == Confirmed && s.ent.Some? && s.ent.value.owner == Bought(i)
  }

  function BeginRefund(s: Shared, i: Idem): Shared {
    s.(ent := None, recs := s.recs[i := Refunding])
  }

  predicate CanCompleteRefund(s: Shared, i: Idem) { i in s.recs && s.recs[i] == Refunding }

  function CompleteRefund(s: Shared, i: Idem): Shared { s.(recs := s.recs[i := Refunded]) }

  function Debit(s: Shared, i: Idem): Shared {
    if i in s.debits then s else s.(debits := s.debits[i := s.price])
  }

  function Credit(s: Shared, i: Idem): Shared {
    if i in s.credits then s else s.(credits := s.credits[i := s.price])
  }

  function GrantRow(s: Shared): Shared { if s.ent.None? then s.(ent := Some(Ent(Granted, true))) else s }

  // ---------- Calls in progress ----------

  datatype Result = Owned(idem: Idem) | RefundDone(idem: Idem) | Read(status: Status) | Error

  datatype Pc =
    | Reserving(i: Idem)
    | ReadEnt(i: Idem)
    | ReadRec(i: Idem, ent: Ent)
    | Debiting(i: Idem)
    | Cancelling(i: Idem)
    | Confirming(i: Idem)
    | RecheckRec(i: Idem)
    | RecheckEnt(i: Idem)
    | RefundLoad(i: Idem)
    | RefundEnt(i: Idem)
    | BeginningRefund(i: Idem)
    | RefundReread(i: Idem)
    | Crediting(i: Idem)
    | Completing(i: Idem)
    | CompleteReread(i: Idem)
    | RefreshLoad(i: Idem)
    | Done(result: Result)

  function StatusOf(s: Shared, i: Idem): Option<Status> {
    if i in s.recs then Some(s.recs[i]) else None
  }

  function OnReserving(s: Shared, i: Idem, env: Env): (Shared, Pc) {
    if env.reply == Refused || env.reply == Rejected then (s, Done(Error))
    else if !CanReserve(s, i) then (s, ReadEnt(i))
    else (Reserve(s, i), if env.reply == Landed then Debiting(i) else Done(Error))
  }

  // A slot held by anything but a play-money purchase is somebody else's.
  function OnReadEnt(s: Shared, i: Idem, env: Env): Pc {
    if env.reply != Landed || s.ent.None? || !s.ent.value.owner.Bought? then Done(Error)
    else ReadRec(i, s.ent.value)
  }

  // An active slot answers only a replay of its own key; a processing one is
  // resumed under the key it was reserved with.
  function OnReadRec(s: Shared, i: Idem, ent: Ent, env: Env): Pc
    requires ent.owner.Bought?
  {
    var j := ent.owner.idem;
    var rec := StatusOf(s, j);
    if env.reply != Landed then Done(Error)
    else if ent.active then
      if rec == Some(Confirmed) && j == i then Done(Owned(i)) else Done(Error)
    else if rec == Some(Processing) then Debiting(j)
    else Done(Error)
  }

  // A key the wallet already knows succeeds; only an unknown one can be
  // definitively rejected.
  function OnDebiting(s: Shared, i: Idem, env: Env): (Shared, Pc) {
    if env.reply == Rejected && i !in s.debits then (s, Cancelling(i))
    else if env.reply == Refused then (s, Done(Error))
    else (Debit(s, i), if env.reply == Lost then Done(Error) else Confirming(i))
  }

  function OnCancelling(s: Shared, i: Idem, env: Env): (Shared, Pc) {
    (if env.reply.Applied() && PendingFor(s, i) then Cancel(s, i) else s, Done(Error))
  }

  function OnConfirming(s: Shared, i: Idem, env: Env): (Shared, Pc) {
    if env.reply == Refused || env.reply == Rejected then (s, Done(Error))
    else if !PendingFor(s, i) then (s, RecheckRec(i))
    else (Confirm(s, i), Done(if env.reply == Landed then Owned(i) else Error))
  }

  function OnRecheckRec(s: Shared, i: Idem, env: Env): Pc {
    if env.reply == Landed && StatusOf(s, i) == Some(Confirmed) then RecheckEnt(i) else Done(Error)
  }

  function OnRecheckEnt(s: Shared, i: Idem, env: Env): Pc {
    Done(if env.reply == Landed && s.ent.Some? && s.ent.value.active then Owned(i) else Error)
  }

  function OnRefundLoad(s: Shared, i: Idem, env: Env): Pc {
    if env.reply != Landed || i !in s.recs then Done(Error)
    else
      match s.recs[i]
      case Confirmed => RefundEnt(i)
      case Refunding => Crediting(i)
      case Refunded => Done(Error)
      case Processing => Done(Error)
  }

  function OnRefundEnt(s: Shared, i: Idem, env: Env): Pc {
    if env.reply == Landed && s.ent == Some(Ent(Bought(i), true)) && !env.inUse then BeginningRefund(i) else Done(Error)
  }

  function OnBeginningRefund(s: Shared, i: Idem, env: Env): (Shared, Pc) {
    if !env.reply.Applied() || !CanBeginRefund(s, i) then (s, RefundReread(i))
    else (BeginRefund(s, i), if env.reply == Landed then Crediting(i) else RefundReread(i))
  }

  function OnRefundReread(s: Shared, i: Idem, env: Env): Pc {
    if env.reply == Landed && StatusOf(s, i) == Some(Refunding) then Crediting(i) else Done(Error)
  }

  function OnCrediting(s: Shared, i: Idem, env: Env): (Shared, Pc) {
    if !env.reply.Applied() then (s, Done(Error))
    else (Credit(s, i), if env.reply == Landed then Completing(i) else Done(Error))
  }

  function OnCompleting(s: Shared, i: Idem, env: Env): (Shared, Pc) {
    if !env.reply.Applied() then (s, Done(Error))
    else if !CanCompleteRefund(s, i) then (s, CompleteReread(i))
    else (CompleteRefund(s, i), Done(if env.reply == Landed then RefundDone(i) else Error))
  }

  function OnCompleteReread(s: Shared, i: Idem, env: Env): Pc {
    Done(if env.reply == Landed && StatusOf(s, i) == Some(Refunded) then RefundDone(i) else Error)
  }

  // Only an interrupted debit is resumed; any other row is just reported.
  function OnRefreshLoad(s: Shared, i: Idem, env: Env): Pc {
    if env.reply != Landed || i !in s.recs then Done(Error)
    else if s.recs[i] == Processing then Debiting(i)
    else Done(Read(s.recs[i]))
  }

  predicate WellFormed(pc: Pc) { pc.ReadRec? ==> pc.ent.owner.Bought? }

  function Advance(s: Shared, pc: Pc, env: Env): (next: (Shared, Pc))
    requires WellFormed(pc)
    ensures WellFormed(next.1)
  {
    match pc
    case Reserving(i) => OnReserving(s, i, env)
    case ReadEnt(i) => (s, OnReadEnt(s, i, env))
    case ReadRec(i, ent) => (s, OnReadRec(s, i, ent, env))
    case Debiting(i) => OnDebiting(s, i, env)
    case Cancelling(i) => OnCancelling(s, i, env)
    case Confirming(i) => OnConfirming(s, i, env)
    case RecheckRec(i) => (s, OnRecheckRec(s, i, env))
    case RecheckEnt(i) => (s, OnRecheckEnt(s, i, env))
    case RefundLoad(i) => (s, OnRefundLoad(s, i, env))
    case RefundEnt(i) => (s, OnRefundEnt(s, i, env))
    case BeginningRefund(i) => OnBeginningRefund(s, i, env)
    case RefundReread(i) => (s, OnRefundReread(s, i, env))
    case Crediting(i) => OnCrediting(s, i, env)
    case Completing(i) => OnCompleting(s, i, env)
    case CompleteReread(i) => (s, OnCompleteReread(s, i, env))
    case RefreshLoad(i) => (s, OnRefreshLoad(s, i, env))
    case Done(_) => (s, pc)
  }

  datatype World = World(shared: Shared, threads: map<ThreadId, Pc>)

  datatype Action =
    | StartCreate(t: ThreadId, i: Idem)
    | StartRefund(t: ThreadId, i: Idem)
    | StartRefresh(t: ThreadId, i: Idem)
    | Go(t: ThreadId, env: Env)
    | Crash(t: ThreadId)
    | Grant

  function Step(w: World, a: Action): World {
    match a
    case StartCreate(t, i) => if t in w.threads then w else w.(threads := w.threads[t := Reserving(i)])
    case StartRefund(t, i) => if t in w.threads then w else w.(threads := w.threads[t := RefundLoad(i)])
    case StartRefresh(t, i) => if t in w.threads then w else w.(threads := w.threads[t := RefreshLoad(i)])
    case Go(t, env) =>
      if t !in w.threads || !WellFormed(w.threads[t]) then w
      else
        var x := Advance(w.shared, w.threads[t], env);
        World(x.0, w.threads[t := x.1])
    case Crash(t) => w.(threads := w.threads - {t})
    case Grant => w.(shared := GrantRow(w.shared))
  }

  function Run(w: World, actions: seq<Action>): World
    decreases |actions|
  {
    if actions == [] then w else Step(Run(w, actions[..|actions| - 1]), actions[|actions| - 1])
  }

  lemma RunLast(w: World, actions: seq<Action>, a: Action)
    ensures Run(w, []) == w && Run(w, actions + [a]) == Step(Run(w, actions), a)
  {
    hide Step;
    assert (actions + [a])[..|actions|] == actions;
  }

  // One call on its own, with the outside's answers in order.
  function Solo(s: Shared, pc: Pc, envs: seq<Env>): (next: (Shared, Pc))
    requires WellFormed(pc)
    ensures WellFormed(next.1)
    decreases |envs|
  {
    if envs == [] then (s, pc)
    else
      var x := Solo(s, pc, envs[..|envs| - 1]);
      Advance(x.0, x.1, envs[|envs| - 1])
  }

  function Goes(t: ThreadId, envs: seq<Env>): (actions: seq<Action>)
    ensures |actions| == |envs|
  {
    seq(|envs|, n requires 0 <= n < |envs| => Go(t, envs[n]))
  }

  // A call on its own is a run of the machine.
  lemma {:induction false} SoloIsRun(w: World, t: ThreadId, envs: seq<Env>)
    requires t in w.threads && WellFormed(w.threads[t])
    ensures var x := Solo(w.shared, w.threads[t], envs);
      Run(w, Goes(t, envs)) == World(x.0, w.threads[t := x.1])
    decreases |envs|
  {
    hide Advance;
    if envs == [] {
      assert w.threads == w.threads[t := w.threads[t]];
    } else {
      var before := envs[..|envs| - 1];
      SoloIsRun(w, t, before);
      assert Goes(t, envs)[..|envs| - 1] == Goes(t, before);
    }
  }

  lemma SoloLast(s: Shared, pc: Pc, envs: seq<Env>, env: Env)
    requires WellFormed(pc)
    ensures var x := Solo(s, pc, envs); Solo(s, pc, envs + [env]) == Advance(x.0, x.1, env)
    ensures Solo(s, pc, []) == (s, pc)
  {
    hide Advance;
    assert (envs + [env])[..|envs|] == envs;
  }

  lemma {:induction false} SoloSplit(s: Shared, pc: Pc, a: seq<Env>, b: seq<Env>)
    requires WellFormed(pc)
    ensures var x := Solo(s, pc, a); Solo(s, pc, a + b) == Solo(x.0, x.1, b)
    decreases |b|
  {
    hide Advance;
    if b == [] {
      assert a + b == a;
    } else {
      var n := |b| - 1;
      SoloSplit(s, pc, a, b[..n]);
      assert (a + b)[..|a + b| - 1] == a + b[..n];
    }
  }

  // The first answer, then the rest.
  lemma SoloFirst(s: Shared, pc: Pc, envs: seq<Env>, n: nat)
    requires WellFormed(pc) && 1 <= n <= |envs|
    ensures var x := Advance(s, pc, envs[0]); Solo(s, pc, envs[..n]) == Solo(x.0, x.1, envs[1..][..n - 1])
  {
    hide Advance;
    assert envs[..n] == [envs[0]] + envs[1..][..n - 1];
    SoloSplit(s, pc, [envs[0]], envs[1..][..n - 1]);
    assert [envs[0]][..0] == [];
  }
}
