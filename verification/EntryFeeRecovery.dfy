// An entry fee interrupted anywhere after its reservation is finished by the next
// undisturbed buy-in.
module EntryFeeRecovery {
  import opened Sums
  import opened Replies
  import opened EntryFee
  import opened EntryFeeOrigin

  // The reservation that covers this table is there, but its fee is not known paid.
  ghost predicate Unpaid(s: Shared, room: RoomId, player: PlayerId, page: seq<RoomId>, e: Ent) {
    && room in s.rooms && e.fee > 0
    && FirstMatch(Active(s, player, page), s.rooms[room].tier, room) == Some(e)
    && !(KeyOf(e) in s.rows && s.rows[KeyOf(e)].resolved)
  }

  // The store once it is: charged once, and its recovery row resolved.
  function Settled(s: Shared, e: Ent): Shared {
    var k := KeyOf(e);
    var row := if k in s.rows then s.rows[k] else FeeRow(e.fee, false, true, 0);
    s.(rows := s.rows[k := row.(resolved := true, open := false)],
       ledger := if k in s.ledger then s.ledger else s.ledger[k := e.fee])
  }

  // Whether the interruption came before the record, before the charge or before the
  // resolve: the call charges what is missing, under the same key, and admits.
  lemma UnpaidIsCompleted(s: Shared, room: RoomId, player: PlayerId, env: nat -> Env, page: seq<RoomId>, bound: Availability, e: Ent)
    requires Unpaid(s, room, player, page, e) && forall k :: env(k) == Calm(page, bound)
    ensures Solo(s, room, player, Load, env, 0, 5) == (Settled(s, e), Admitted(e, s.now))
  {
    hide Solo, AdvanceBuyIn, Active;
    var c := Calm(page, bound);
    CalmStep(s, room, player, Load, env, 0, 0, c);
    CalmStep(s, room, player, Load, env, 0, 1, c);
    CalmStep(s, room, player, Load, env, 0, 2, c);
    CalmStep(s, room, player, Load, env, 0, 3, c);
    CalmStep(s, room, player, Load, env, 0, 4, c);
    CompletionSteps(s, room, player, page, bound, e);
  }

  lemma CompletionSteps(s: Shared, room: RoomId, player: PlayerId, page: seq<RoomId>, bound: Availability, e: Ent)
    requires Unpaid(s, room, player, page, e)
    ensures var c := Calm(page, bound);
      var s1 := RecordFee(s, e);
      var s2 := Charge(s1, KeyOf(e), e.fee);
      && AdvanceBuyIn(s, room, player, Load, c) == (s, Confirm(e, s.now))
      && AdvanceBuyIn(s, room, player, Confirm(e, s.now), c) == (s, Record(e, s.now))
      && AdvanceBuyIn(s, room, player, Record(e, s.now), c) == (s1, Charging(e, s.now))
      && AdvanceBuyIn(s1, room, player, Charging(e, s.now), c) == (s2, Resolve(e, s.now))
      && AdvanceBuyIn(s2, room, player, Resolve(e, s.now), c) == (Settled(s, e), Admitted(e, s.now))
  {
    hide OnLoad, Active, FirstMatch;
    LoadScans(s, room, player, page, bound);
    var s2 := Charge(RecordFee(s, e), KeyOf(e), e.fee);
    assert ResolveFee(s2, KeyOf(e)) == Settled(s, e);
  }

  // A fee already paid is not touched.
  lemma PaidIsAdmitted(s: Shared, room: RoomId, player: PlayerId, env: nat -> Env, page: seq<RoomId>, bound: Availability, e: Ent)
    requires room in s.rooms && FirstMatch(Active(s, player, page), s.rooms[room].tier, room) == Some(e)
    requires KeyOf(e) in s.rows && s.rows[KeyOf(e)].resolved && forall k :: env(k) == Calm(page, bound)
    ensures Solo(s, room, player, Load, env, 0, 2) == (s, Admitted(e, s.now))
  {
    hide Solo, OnLoad, Active;
    var c := Calm(page, bound);
    CalmStep(s, room, player, Load, env, 0, 0, c);
    CalmStep(s, room, player, Load, env, 0, 1, c);
    LoadScans(s, room, player, page, bound);
  }

  // ---------- Answers ----------

  // A resolution fails only on an answer it did not get, or when the reservation that
  // beat its claim is gone again; and a failed resolve never fails it.
  lemma FailsOnlyUnanswered(s: Shared, room: RoomId, player: PlayerId, pc: Pc, env: Env)
    requires room in s.rooms && !pc.Failed? && AdvanceBuyIn(s, room, player, pc, env).1.Failed?
    ensures !pc.Resolve? && !pc.Scan? && (env.reply != Landed || (pc.Reload? && FirstAt(Active(s, player, env.page), room).None?))
  {
  }

  // It goes past a record, a charge, or a write that moved or made a reservation only
  // on hearing that it landed, and a fee-free reservation needs no answer at all.
  lemma UnheardWriteStops(s: Shared, room: RoomId, player: PlayerId, pc: Pc, env: Env)
    requires room in s.rooms && env.reply != Landed
    ensures var (s', pc') := AdvanceBuyIn(s, room, player, pc, env);
      && (pc.Record? || pc.Charging? ==> pc'.Failed?)
      && (s'.ents != s.ents ==> pc'.Failed?)
      && (pc.Confirm? ==> if pc.e.fee == 0 then pc' == Admitted(pc.e, pc.readAt) else pc'.Failed?)
  {
  }

  // ---------- The sweep ----------

  function Sweeps(s: Shared, th: Thread, envs: seq<Env>): (Shared, Thread)
    requires !th.BuyIn?
    decreases |envs|
  {
    if envs == [] then (s, th)
    else
      var x := AdvanceSweep(s, th, envs[0]);
      Sweeps(x.0, x.1, envs[1..])
  }

  predicate FeeSettled(s: Shared, k: FeeKey) {
    k in s.ledger && k in s.rows && s.rows[k].resolved && !s.rows[k].open
  }

  // An undisturbed sweep charges and resolves every fee it listed.
  lemma {:induction false} SweepSettlesFees(s: Shared, q: seq<Due>, envs: seq<Env>)
    requires |envs| == 2 * |q| && forall k :: 0 <= k < |envs| ==> envs[k].reply == Landed
    requires forall i :: 0 <= i < |q| ==> q[i].key in s.rows
    ensures var (s', th) := Sweeps(s, Sweep(q), envs);
      && th == Sweep([])
      && (forall i :: 0 <= i < |q| ==> FeeSettled(s', q[i].key))
      && (forall k :: FeeSettled(s, k) ==> FeeSettled(s', k))
      && (forall k :: k in s.ledger ==> k in s'.ledger && s'.ledger[k] == s.ledger[k])
    decreases |q|
  {
    if q != [] {
      var s1 := Charge(s, q[0].key, q[0].row.amount);
      var s2 := ResolveFee(s1, q[0].key);
      TwoSweepSteps(s, Sweep(q), envs);
      SweepSettlesFees(s2, q[1..], envs[2..]);
      var s' := Sweeps(s, Sweep(q), envs).0;
      forall i | 0 <= i < |q|
        ensures FeeSettled(s', q[i].key)
      {
        if i > 0 { assert q[1..][i - 1] == q[i]; }
      }
    }
  }

  lemma TwoSweepSteps(s: Shared, th: Thread, envs: seq<Env>)
    requires !th.BuyIn? && |envs| >= 2
    ensures var x := AdvanceSweep(s, th, envs[0]);
      var y := AdvanceSweep(x.0, x.1, envs[1]);
      Sweeps(s, th, envs) == Sweeps(y.0, y.1, envs[2..])
  {
    hide AdvanceSweep;
    assert envs[1..][1..] == envs[2..];
  }

  // A fee that could not be charged is counted against its row and the sweep goes on;
  // the last attempt allowed takes the row out of later sweeps.
  lemma FailedFeeIsCounted(s: Shared, q: seq<Due>, envs: seq<Env>)
    requires q != [] && |envs| >= 2 && envs[0].reply == Refused && envs[1].reply == Landed
    requires q[0].key in s.rows
    ensures var k, attempts := q[0].key, q[0].row.attempts + 1;
      var row := s.rows[k];
      var s' := s.(rows := s.rows[k := row.(attempts := attempts, open := row.open && attempts < MAX_ATTEMPTS)]);
      Sweeps(s, Sweep(q), envs) == Sweeps(s', Sweep(q[1..]), envs[2..])
  {
    TwoSweepSteps(s, Sweep(q), envs);
  }
}
