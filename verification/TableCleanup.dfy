// Closing one idle table: its seats are settled, then it is archived at the very
// version that was settled, then its room goes. Sweeps may overlap, crash and be
// repeated while players keep acting.
module TableCleanup {
  import opened Sums
  import opened Replies

  type ThreadId = nat
  type PlayerId = nat

  datatype Mode = Sandbox | Real | Unrecognized

  datatype Seat = Seat(player: PlayerId, stack: int)

  // Money under the table's settlement key of a player. `version` is history: the
  // table version the paying sweep had read.
  datatype Paid = Paid(amount: int, version: nat)
  datatype Row = Row(amount: int, version: nat, resolved: bool)

  // `states` is the table's history; its last element is the table now, and the
  // index of that element its version. `refunds` is the sandbox ledger, `rows` the
  // durable settlement rows and `cashouts` the real-money ledger, by player.
  datatype Shared = Shared(
    mode: Mode,
    states: seq<seq<Seat>>,
    archived: Option<nat>,
    room: bool,
    refunds: map<PlayerId, Paid>,
    rows: map<PlayerId, Row>,
    cashouts: map<PlayerId, Paid>)

  function Version(s: Shared): int { |s.states| - 1 }

  datatype Pc =
    | LoadingRoom(version: nat, seats: seq<Seat>)
    | Refunding(version: nat, seats: seq<Seat>, n: nat, failed: bool)
    | Recording(version: nat, seats: seq<Seat>, n: nat, failed: bool)
    | CashingOut(version: nat, seats: seq<Seat>, n: nat, failed: bool)
    | Resolving(version: nat, seats: seq<Seat>, n: nat, failed: bool)
    | Archiving(version: nat, seats: seq<Seat>)
    | DeletingRoom
    | Done

  function Post(ledger: map<PlayerId, Paid>, seat: Seat, version: nat): map<PlayerId, Paid> {
    if seat.player in ledger then ledger else ledger[seat.player := Paid(seat.stack, version)]
  }

  // A missing room is unknown, never assumed to be sandbox.
  function OnLoadingRoom(s: Shared, version: nat, seats: seq<Seat>, reply: Reply): Pc {
    if reply != Landed || !s.room then Done
    else
      match s.mode
      case Sandbox => Refunding(version, seats, 0, false)
      case Real => Recording(version, seats, 0, false)
      case Unrecognized => Done
  }

  function Settled(version: nat, seats: seq<Seat>, failed: bool): Pc {
    if failed then Done else Archiving(version, seats)
  }

  function OnRefunding(s: Shared, version: nat, seats: seq<Seat>, n: nat, failed: bool, reply: Reply): (Shared, Pc) {
    if n >= |seats| then (s, Settled(version, seats, failed))
    else if seats[n].stack <= 0 then (s, Refunding(version, seats, n + 1, failed))
    else (if reply.Applied() then s.(refunds := Post(s.refunds, seats[n], version)) else s,
          Refunding(version, seats, n + 1, failed || reply != Landed))
  }

  // A row already under the key is success; only an unrecorded seat blocks the archive.
  function OnRecording(s: Shared, version: nat, seats: seq<Seat>, n: nat, failed: bool, reply: Reply): (Shared, Pc) {
    if n >= |seats| then (s, Settled(version, seats, failed))
    else if seats[n].stack <= 0 then (s, Recording(version, seats, n + 1, failed))
    else
      var p := seats[n].player;
      var after := if reply.Applied() && p !in s.rows then s.(rows := s.rows[p := Row(seats[n].stack, version, false)]) else s;
      (after, if reply == Landed then CashingOut(version, seats, n, failed) else Recording(version, seats, n + 1, true))
  }

  function OnCashingOut(s: Shared, version: nat, seats: seq<Seat>, n: nat, failed: bool, reply: Reply): (Shared, Pc) {
    if n >= |seats| then (s, Done)
    else (if reply.Applied() then s.(cashouts := Post(s.cashouts, seats[n], version)) else s,
          if reply == Landed then Resolving(version, seats, n, failed) else Recording(version, seats, n + 1, failed))
  }

  function OnResolving(s: Shared, version: nat, seats: seq<Seat>, n: nat, failed: bool, reply: Reply): (Shared, Pc) {
    if n >= |seats| then (s, Done)
    else (if reply.Applied() then Resolve(s, seats[n].player) else s, Recording(version, seats, n + 1, failed))
  }

  function Resolve(s: Shared, p: PlayerId): Shared {
    if p in s.rows then s.(rows := s.rows[p := s.rows[p].(resolved := true)]) else s
  }

  // The archive is conditional on the version that was settled.
  function OnArchiving(s: Shared, version: nat, reply: Reply): (Shared, Pc) {
    if reply == Refused || version != Version(s) then (s, Done)
    else (s.(archived := Some(version)), if reply == Landed then DeletingRoom else Done)
  }

  function Advance(s: Shared, pc: Pc, reply: Reply): (Shared, Pc) {
    match pc
    case LoadingRoom(version, seats) => (s, OnLoadingRoom(s, version, seats, reply))
    case Refunding(version, seats, n, failed) => OnRefunding(s, version, seats, n, failed, reply)
    case Recording(version, seats, n, failed) => OnRecording(s, version, seats, n, failed, reply)
    case CashingOut(version, seats, n, failed) => OnCashingOut(s, version, seats, n, failed, reply)
    case Resolving(version, seats, n, failed) => OnResolving(s, version, seats, n, failed, reply)
    case Archiving(version, _) => OnArchiving(s, version, reply)
    case DeletingRoom => (if reply.Applied() then s.(room := false) else s, Done)
    case Done => (s, pc)
  }

  datatype World = World(shared: Shared, threads: map<ThreadId, Pc>)

  datatype Action =
    | Sweep(t: ThreadId)
    | Go(t: ThreadId, reply: Reply)
    | Crash(t: ThreadId)
    | Act(seats: seq<Seat>)
    | Reconcile(player: PlayerId, credit: Reply, resolve: Reply)

  // The retry job pays an unresolved row its recorded amount under the same key.
  function Retry(s: Shared, p: PlayerId, credit: Reply, resolve: Reply): Shared {
    if p !in s.rows || s.rows[p].resolved || !credit.Applied() then s
    else
      var paid := s.(cashouts := Post(s.cashouts, Seat(p, s.rows[p].amount), s.rows[p].version));
      if credit == Landed && resolve.Applied() then Resolve(paid, p) else paid
  }

  // Any committed player action moves the table to a new version.
  function Step(w: World, a: Action): World {
    var s := w.shared;
    match a
    case Sweep(t) =>
      if t in w.threads || s.states == [] || s.archived.Some? then w
      else w.(threads := w.threads[t := LoadingRoom(Version(s), s.states[Version(s)])])
    case Go(t, reply) =>
      if t !in w.threads then w
      else
        var x := Advance(s, w.threads[t], reply);
        World(x.0, w.threads[t := x.1])
    case Crash(t) => w.(threads := w.threads - {t})
    case Act(seats) => w.(shared := s.(states := s.states + [seats]))
    case Reconcile(p, credit, resolve) => w.(shared := Retry(s, p, credit, resolve))
  }

  function Run(w: World, actions: seq<Action>): World
    decreases |actions|
  {
    if actions == [] then w else Step(Run(w, actions[..|actions| - 1]), actions[|actions| - 1])
  }

  function Opened(mode: Mode, seats: seq<Seat>, room: bool): World {
    World(Shared(mode, [seats], None, room, map[], map[], map[]), map[])
  }

  // ---------- Safety ----------

  // The seat's money is in the ledger, or owed by a durable row.
  ghost predicate Covered(s: Shared, seat: Seat) {
    seat.stack > 0 ==> (s.mode == Sandbox && seat.player in s.refunds) || (s.mode == Real && seat.player in s.rows)
  }

  ghost predicate CoveredUpTo(s: Shared, seats: seq<Seat>, n: nat) {
    n <= |seats| && forall i :: 0 <= i < n ==> Covered(s, seats[i])
  }

  ghost predicate Snapshot(s: Shared, version: nat, seats: seq<Seat>) {
    version < |s.states| && s.states[version] == seats
  }

  // The amount is a positive stack that this player had at that version.
  ghost predicate FromSeat(s: Shared, p: PlayerId, amount: int, version: nat) {
    version < |s.states| && amount > 0 && Seat(p, amount) in s.states[version]
  }

  ghost predicate ArchiveOk(s: Shared) {
    && s.states != []
    && (s.archived.Some? ==> s.archived.value < |s.states| && CoveredUpTo(s, s.states[s.archived.value], |s.states[s.archived.value]|))
  }

  // Money only moves in the table's own mode, out of a stack some sweep saw; a
  // resolved row has been paid.
  ghost predicate MoneyOk(s: Shared) {
    && (forall p :: p in s.refunds ==> s.mode == Sandbox && FromSeat(s, p, s.refunds[p].amount, s.refunds[p].version))
    && (forall p :: p in s.rows ==> s.mode == Real && FromSeat(s, p, s.rows[p].amount, s.rows[p].version))
    && (forall p :: p in s.cashouts ==> p in s.rows && FromSeat(s, p, s.cashouts[p].amount, s.cashouts[p].version))
    && (forall p :: p in s.rows && s.rows[p].resolved ==> p in s.cashouts)
  }

  ghost predicate SharedOk(s: Shared) { ArchiveOk(s) && MoneyOk(s) }

  ghost predicate PcOk(s: Shared, pc: Pc) {
    match pc
    case LoadingRoom(version, seats) => Snapshot(s, version, seats)
    case Refunding(version, seats, n, failed) =>
      s.mode == Sandbox && Snapshot(s, version, seats) && n <= |seats| && (!failed ==> CoveredUpTo(s, seats, n))
    case Recording(version, seats, n, failed) =>
      s.mode == Real && Snapshot(s, version, seats) && n <= |seats| && (!failed ==> CoveredUpTo(s, seats, n))
    case CashingOut(version, seats, n, failed) =>
      s.mode == Real && Snapshot(s, version, seats) && n < |seats| && seats[n].stack > 0 && seats[n].player in s.rows
      && (!failed ==> CoveredUpTo(s, seats, n))
    case Resolving(version, seats, n, failed) =>
      s.mode == Real && Snapshot(s, version, seats) && n < |seats| && seats[n].player in s.rows && seats[n].player in s.cashouts
      && (!failed ==> CoveredUpTo(s, seats, n))
    case Archiving(version, seats) => Snapshot(s, version, seats) && CoveredUpTo(s, seats, |seats|)
    case DeletingRoom => s.archived.Some?
    case Done => true
  }

  // Nothing settled is ever taken back, and the room only goes once archived.
  ghost predicate Forward(s: Shared, s': Shared) {
    && s'.mode == s.mode && s.states <= s'.states
    && (s.archived.Some? ==> s'.archived.Some?)
    && (s.room && !s'.room ==> s'.archived.Some?)
    && (!s.room ==> !s'.room)
    && (forall p :: p in s.refunds ==> p in s'.refunds && s'.refunds[p] == s.refunds[p])
    && (forall p :: p in s.rows ==> p in s'.rows && s'.rows[p].amount == s.rows[p].amount && (s.rows[p].resolved ==> s'.rows[p].resolved))
    && (forall p :: p in s.cashouts ==> p in s'.cashouts && s'.cashouts[p] == s.cashouts[p])
  }

  ghost predicate Inv(w: World) {
    && SharedOk(w.shared)
    && (forall t :: t in w.threads ==> PcOk(w.shared, w.threads[t]))
  }

  lemma CoveredStable(s: Shared, s': Shared, seats: seq<Seat>, n: nat)
    requires Forward(s, s') && CoveredUpTo(s, seats, n)
    ensures CoveredUpTo(s', seats, n)
  {
    forall i | 0 <= i < n ensures Covered(s', seats[i]) { assert Covered(s, seats[i]); }
  }

  lemma FromSeatStable(s: Shared, s': Shared)
    requires s.states <= s'.states
    ensures forall p, amount, version :: FromSeat(s, p, amount, version) ==> FromSeat(s', p, amount, version)
  {
  }

  lemma PcStable(s: Shared, s': Shared, pc: Pc)
    requires Forward(s, s') && PcOk(s, pc)
    ensures PcOk(s', pc)
  {
    hide CoveredUpTo;
    match pc
    case Refunding(_, seats, n, failed) => if !failed { CoveredStable(s, s', seats, n); }
    case Recording(_, seats, n, failed) => if !failed { CoveredStable(s, s', seats, n); }
    case CashingOut(_, seats, n, failed) => if !failed { CoveredStable(s, s', seats, n); }
    case Resolving(_, seats, n, failed) => if !failed { CoveredStable(s, s', seats, n); }
    case Archiving(_, seats) => CoveredStable(s, s', seats, |seats|);
    case _ =>
  }

  ghost predicate Kept(s: Shared, next: (Shared, Pc)) {
    SharedOk(next.0) && PcOk(next.0, next.1) && Forward(s, next.0)
  }

  lemma LoadKeeps(s: Shared, pc: Pc, reply: Reply)
    requires SharedOk(s) && PcOk(s, pc) && (pc.LoadingRoom? || pc.Done?)
    ensures Kept(s, Advance(s, pc, reply))
  {
  }

  lemma ArchiveStays(s: Shared, s': Shared)
    requires ArchiveOk(s) && Forward(s, s') && s'.archived == s.archived
    ensures ArchiveOk(s')
  {
    if s.archived.Some? { CoveredStable(s, s', s.states[s.archived.value], |s.states[s.archived.value]|); }
  }

  // The four money writes.
  lemma PostRefundKeeps(s: Shared, seat: Seat, version: nat)
    requires SharedOk(s) && s.mode == Sandbox && FromSeat(s, seat.player, seat.stack, version)
    ensures var s' := s.(refunds := Post(s.refunds, seat, version)); SharedOk(s') && Forward(s, s')
  {
    var s' := s.(refunds := Post(s.refunds, seat, version));
    hide CoveredUpTo;
    FromSeatStable(s, s');
    ArchiveStays(s, s');
    hide FromSeat;
  }

  lemma PostCashoutKeeps(s: Shared, seat: Seat, version: nat)
    requires SharedOk(s) && seat.player in s.rows && FromSeat(s, seat.player, seat.stack, version)
    ensures var s' := s.(cashouts := Post(s.cashouts, seat, version)); SharedOk(s') && Forward(s, s')
  {
    var s' := s.(cashouts := Post(s.cashouts, seat, version));
    hide CoveredUpTo;
    FromSeatStable(s, s');
    ArchiveStays(s, s');
    hide FromSeat;
  }

  lemma AddRowKeeps(s: Shared, seat: Seat, version: nat)
    requires SharedOk(s) && s.mode == Real && seat.player !in s.rows && FromSeat(s, seat.player, seat.stack, version)
    ensures var s' := s.(rows := s.rows[seat.player := Row(seat.stack, version, false)]); SharedOk(s') && Forward(s, s')
  {
    var s' := s.(rows := s.rows[seat.player := Row(seat.stack, version, false)]);
    hide CoveredUpTo;
    FromSeatStable(s, s');
    ArchiveStays(s, s');
    hide FromSeat;
  }

  lemma ResolveKeeps(s: Shared, p: PlayerId)
    requires SharedOk(s) && p in s.cashouts
    ensures SharedOk(Resolve(s, p)) && Forward(s, Resolve(s, p))
  {
    hide CoveredUpTo, FromSeat;
    SameSeats(s, Resolve(s, p));
    ResolveForward(s, p);
    ArchiveStays(s, Resolve(s, p));
    ResolveMoney(s, p);
    hide ArchiveOk, MoneyOk, Forward;
  }

  lemma ResolveForward(s: Shared, p: PlayerId)
    ensures Forward(s, Resolve(s, p))
  {
  }

  lemma ResolveMoney(s: Shared, p: PlayerId)
    requires MoneyOk(s) && p in s.cashouts
    ensures MoneyOk(Resolve(s, p))
  {
    hide FromSeat;
    SameSeats(s, Resolve(s, p));
  }

  lemma SameSeats(s: Shared, s': Shared)
    requires s'.states == s.states
    ensures forall p, amount, version :: FromSeat(s', p, amount, version) <==> FromSeat(s, p, amount, version)
  {
  }

  lemma SeatIsSeen(s: Shared, version: nat, seats: seq<Seat>, n: nat)
    requires Snapshot(s, version, seats) && n < |seats| && seats[n].stack > 0
    ensures FromSeat(s, seats[n].player, seats[n].stack, version)
  {
    assert seats[n] in seats;
  }

  lemma RefundKeeps(s: Shared, pc: Pc, reply: Reply)
    requires SharedOk(s) && PcOk(s, pc) && pc.Refunding?
    ensures Kept(s, Advance(s, pc, reply))
  {
    hide FromSeat, ArchiveOk, MoneyOk;
    var s' := Advance(s, pc, reply).0;
    ForwardSelf(s);
    if pc.n < |pc.seats| && pc.seats[pc.n].stack > 0 {
      SeatIsSeen(s, pc.version, pc.seats, pc.n);
      PostRefundKeeps(s, pc.seats[pc.n], pc.version);
    }
    if !pc.failed { CoveredStable(s, s', pc.seats, pc.n); }
    hide SharedOk, Forward;
  }

  lemma RecordKeeps(s: Shared, pc: Pc, reply: Reply)
    requires SharedOk(s) && PcOk(s, pc) && pc.Recording?
    ensures Kept(s, Advance(s, pc, reply))
  {
    hide FromSeat, ArchiveOk, MoneyOk;
    var s' := Advance(s, pc, reply).0;
    ForwardSelf(s);
    if pc.n < |pc.seats| && pc.seats[pc.n].stack > 0 && pc.seats[pc.n].player !in s.rows {
      SeatIsSeen(s, pc.version, pc.seats, pc.n);
      AddRowKeeps(s, pc.seats[pc.n], pc.version);
    }
    if !pc.failed { CoveredStable(s, s', pc.seats, pc.n); }
    hide SharedOk, Forward;
  }

  lemma CashOutKeeps(s: Shared, pc: Pc, reply: Reply)
    requires SharedOk(s) && PcOk(s, pc) && pc.CashingOut?
    ensures Kept(s, Advance(s, pc, reply))
  {
    hide FromSeat, ArchiveOk, MoneyOk;
    var s' := Advance(s, pc, reply).0;
    ForwardSelf(s);
    SeatIsSeen(s, pc.version, pc.seats, pc.n);
    PostCashoutKeeps(s, pc.seats[pc.n], pc.version);
    if !pc.failed { CoveredStable(s, s', pc.seats, pc.n); }
    hide SharedOk, Forward;
  }

  lemma ResolvingKeeps(s: Shared, pc: Pc, reply: Reply)
    requires SharedOk(s) && PcOk(s, pc) && pc.Resolving?
    ensures Kept(s, Advance(s, pc, reply))
  {
    hide FromSeat, ArchiveOk, MoneyOk;
    var s' := Advance(s, pc, reply).0;
    ForwardSelf(s);
    ResolveKeeps(s, pc.seats[pc.n].player);
    if !pc.failed { CoveredStable(s, s', pc.seats, pc.n); }
    hide SharedOk, Forward;
  }

  lemma ArchiveKeeps(s: Shared, pc: Pc, reply: Reply)
    requires SharedOk(s) && PcOk(s, pc) && (pc.Archiving? || pc.DeletingRoom?)
    ensures Kept(s, Advance(s, pc, reply))
  {
    hide FromSeat;
    var s' := Advance(s, pc, reply).0;
    SettledBy(s, s');
    hide Covered, Forward;
  }

  lemma SettledBy(s: Shared, s': Shared)
    requires s' == s.(archived := s'.archived, room := s'.room)
    ensures forall seats, n :: CoveredUpTo(s, seats, n) ==> CoveredUpTo(s', seats, n)
    ensures (s.archived.Some? ==> s'.archived.Some?) && (!s.room ==> !s'.room) && (s.room && !s'.room ==> s'.archived.Some?) ==> Forward(s, s')
    ensures MoneyOk(s) ==> MoneyOk(s')
  {
  }

  lemma AdvanceKeeps(s: Shared, pc: Pc, reply: Reply)
    requires SharedOk(s) && PcOk(s, pc)
    ensures Kept(s, Advance(s, pc, reply))
  {
    hide Advance, SharedOk, PcOk, Kept;
    match pc
    case LoadingRoom(_, _) => LoadKeeps(s, pc, reply);
    case Refunding(_, _, _, _) => RefundKeeps(s, pc, reply);
    case Recording(_, _, _, _) => RecordKeeps(s, pc, reply);
    case CashingOut(_, _, _, _) => CashOutKeeps(s, pc, reply);
    case Resolving(_, _, _, _) => ResolvingKeeps(s, pc, reply);
    case Archiving(_, _) => ArchiveKeeps(s, pc, reply);
    case DeletingRoom => ArchiveKeeps(s, pc, reply);
    case Done => LoadKeeps(s, pc, reply);
  }

  lemma ActKeeps(s: Shared, seats: seq<Seat>)
    requires SharedOk(s)
    ensures var s' := s.(states := s.states + [seats]); SharedOk(s') && Forward(s, s')
  {
    var s' := s.(states := s.states + [seats]);
    hide CoveredUpTo;
    FromSeatStable(s, s');
    ArchiveStays(s, s');
    hide FromSeat;
  }

  lemma RetryKeeps(s: Shared, p: PlayerId, credit: Reply, resolve: Reply)
    requires SharedOk(s)
    ensures var s' := Retry(s, p, credit, resolve); SharedOk(s') && Forward(s, s')
  {
    hide CoveredUpTo, FromSeat, ArchiveOk;
    ForwardSelf(s);
    if p in s.rows && !s.rows[p].resolved && credit.Applied() {
      var seat := Seat(p, s.rows[p].amount);
      PostCashoutKeeps(s, seat, s.rows[p].version);
      var paid := s.(cashouts := Post(s.cashouts, seat, s.rows[p].version));
      ResolveKeeps(paid, p);
      ForwardChain(s, paid, Resolve(paid, p));
    }
  }

  lemma ForwardChain(s: Shared, s': Shared, s'': Shared)
    requires Forward(s, s') && Forward(s', s'')
    ensures Forward(s, s'')
  {
  }

  lemma StepKeeps(w: World, a: Action)
    requires Inv(w)
    ensures Inv(Step(w, a)) && Forward(w.shared, Step(w, a).shared)
  {
    hide Advance, SharedOk, PcOk, Retry;
    var w' := Step(w, a);
    match a {
      case Sweep(t) => SweepStarts(w, t);
      case Go(t, reply) => if t in w.threads { AdvanceKeeps(w.shared, w.threads[t], reply); } else { ForwardSelf(w.shared); }
      case Crash(t) => ForwardSelf(w.shared);
      case Act(seats) => ActKeeps(w.shared, seats);
      case Reconcile(p, credit, resolve) => RetryKeeps(w.shared, p, credit, resolve);
    }
    forall u | u in w'.threads
      ensures PcOk(w'.shared, w'.threads[u])
    {
      if u in w.threads && w'.threads[u] == w.threads[u] { PcStable(w.shared, w'.shared, w.threads[u]); }
    }
  }

  lemma SweepStarts(w: World, t: ThreadId)
    requires Inv(w)
    ensures Inv(Step(w, Sweep(t))) && Forward(w.shared, Step(w, Sweep(t)).shared)
  {
    hide CoveredUpTo, FromSeat;
  }

  lemma ForwardSelf(s: Shared)
    ensures Forward(s, s)
  {
  }

  lemma {:induction false} RunKeeps(w: World, actions: seq<Action>)
    requires Inv(w)
    ensures Inv(Run(w, actions)) && Forward(w.shared, Run(w, actions).shared)
    decreases |actions|
  {
    hide Step, Inv, Forward;
    if actions == [] {
      ForwardSelf(w.shared);
    } else {
      var before := Run(w, actions[..|actions| - 1]);
      RunKeeps(w, actions[..|actions| - 1]);
      StepKeeps(before, actions[|actions| - 1]);
      ForwardChain(w.shared, before.shared, Run(w, actions).shared);
    }
  }

  // Every run of every mix of sweeps, crashes, retries and player actions. An
  // archived table has every chip on it at the archived version accounted for, in
  // the ledger of its own mode or by a durable row; a table of no recognised mode,
  // or without a room, is never touched; and a room goes only after the archive.
  lemma ArchivedMeansSettled(mode: Mode, seats: seq<Seat>, room: bool, actions: seq<Action>)
    ensures var s := Run(Opened(mode, seats, room), actions).shared;
      && s.mode == mode
      && (s.archived.Some? ==> s.archived.value < |s.states|)
      && (s.archived.Some? ==> forall seat :: seat in s.states[s.archived.value] && seat.stack > 0 ==>
            (mode == Sandbox && seat.player in s.refunds) || (mode == Real && seat.player in s.rows))
      && (mode == Unrecognized ==> s.archived.None? && s.refunds == map[] && s.rows == map[] && s.cashouts == map[])
      && (mode == Sandbox ==> s.rows == map[] && s.cashouts == map[])
      && (mode == Real ==> s.refunds == map[])
      && (room && !s.room ==> s.archived.Some?)
  {
    hide Run, FromSeat;
    var w := Opened(mode, seats, room);
    RunKeeps(w, actions);
    UnrecognizedStays(w, actions);
    var s := Run(w, actions).shared;
    if s.archived.Some? {
      var last := s.states[s.archived.value];
      forall seat | seat in last && seat.stack > 0
        ensures (mode == Sandbox && seat.player in s.refunds) || (mode == Real && seat.player in s.rows)
      {
        var i :| 0 <= i < |last| && last[i] == seat;
        assert Covered(s, last[i]);
      }
    }
  }

  // A table nobody can classify, or whose room is missing, is never archived.
  ghost predicate Untouched(w: World) {
    && (w.shared.mode == Unrecognized || !w.shared.room)
    && w.shared.archived.None? && w.shared.refunds == map[] && w.shared.rows == map[] && w.shared.cashouts == map[]
    && forall t :: t in w.threads ==> w.threads[t].LoadingRoom? || w.threads[t].Done?
  }

  lemma {:induction false} UntouchedStays(w: World, actions: seq<Action>)
    requires Untouched(w)
    ensures Untouched(Run(w, actions))
    decreases |actions|
  {
    hide Step, Untouched;
    if actions != [] {
      UntouchedStays(w, actions[..|actions| - 1]);
      UntouchedStep(Run(w, actions[..|actions| - 1]), actions[|actions| - 1]);
    }
  }

  lemma UntouchedStep(w: World, a: Action)
    requires Untouched(w)
    ensures Untouched(Step(w, a))
  {
  }

  lemma UnrecognizedStays(w: World, actions: seq<Action>)
    requires w.threads == map[] && w.shared.archived.None?
    requires w.shared.refunds == map[] && w.shared.rows == map[] && w.shared.cashouts == map[]
    ensures w.shared.mode == Unrecognized || !w.shared.room ==> Untouched(Run(w, actions))
  {
    if w.shared.mode == Unrecognized || !w.shared.room { UntouchedStays(w, actions); }
  }

  lemma NoRoomNoSettlement(mode: Mode, seats: seq<Seat>, actions: seq<Action>)
    ensures var s := Run(Opened(mode, seats, false), actions).shared;
      s.archived.None? && s.refunds == map[] && s.rows == map[] && s.cashouts == map[]
  {
    hide Run;
    UnrecognizedStays(Opened(mode, seats, false), actions);
  }

  // ---------- The cleanup job over its stores ----------

  // A table as a sweep read it.
  datatype Stored = Stored(version: nat, seats: seq<Seat>)

  // The payment is exactly a positive stack of this player, at the version read.
  ghost predicate AsRead(st: Stored, p: PlayerId, paid: Paid) {
    Seat(p, paid.amount) in st.seats && paid.amount > 0 && paid.version == st.version
  }

  type Rows = map<PlayerId, Row>
  type Ledger = map<PlayerId, Paid>

  // Rows and payouts only appear, each exactly a positive stack of that player as
  // read, and a row is resolved only once paid.
  ghost predicate RowsFrom(st: Stored, rows0: Rows, cashouts0: Ledger, rows: Rows, cashouts: Ledger) {
    && (forall p :: p in rows0 ==> p in rows && rows[p].amount == rows0[p].amount && rows[p].version == rows0[p].version)
    && (forall p :: p in rows && p !in rows0 ==> AsRead(st, p, Paid(rows[p].amount, rows[p].version)))
    && (forall p :: p in rows && rows[p].resolved ==> p in cashouts || (p in rows0 && rows0[p].resolved))
    && (forall p :: p in cashouts0 ==> p in cashouts && cashouts[p] == cashouts0[p])
    && (forall p :: p in cashouts && p !in cashouts0 ==> AsRead(st, p, cashouts[p]))
  }

  lemma RowsFromSelf(st: Stored, rows: Rows, cashouts: Ledger)
    ensures RowsFrom(st, rows, cashouts, rows, cashouts)
  {
  }

  // A seat that was recorded has its row, one whose payout went through its payout,
  // and one that was resolved too is so.
  ghost predicate SeatPaid(seat: Seat, record: Reply, cash: Reply, resolve: Reply, rows: Rows, cashouts: Ledger) {
    && (record.Applied() ==> seat.player in rows)
    && (record == Landed && cash.Applied() ==> seat.player in cashouts)
    && (record == Landed && cash == Landed && resolve.Applied() ==> seat.player in rows && rows[seat.player].resolved)
  }

  // Of the first n seats.
  ghost predicate PaidOut(st: Stored, n: nat, record: nat -> Reply, cash: nat -> Reply, resolve: nat -> Reply, rows: Rows, cashouts: Ledger)
    requires n <= |st.seats|
  {
    forall i :: 0 <= i < n && st.seats[i].stack > 0 ==> SeatPaid(st.seats[i], record(i), cash(i), resolve(i), rows, cashouts)
  }

  // Nothing settled is taken back.
  ghost predicate SettledGrows(rows0: Rows, cashouts0: Ledger, rows: Rows, cashouts: Ledger) {
    && (forall p :: p in rows0 ==> p in rows && (rows0[p].resolved ==> rows[p].resolved))
    && (forall p :: p in cashouts0 ==> p in cashouts)
  }

  lemma SettledSelf(rows: Rows, cashouts: Ledger)
    ensures SettledGrows(rows, cashouts, rows, cashouts)
  {
  }

  lemma SettledChain(rows0: Rows, cashouts0: Ledger, rows1: Rows, cashouts1: Ledger, rows2: Rows, cashouts2: Ledger)
    requires SettledGrows(rows0, cashouts0, rows1, cashouts1) && SettledGrows(rows1, cashouts1, rows2, cashouts2)
    ensures SettledGrows(rows0, cashouts0, rows2, cashouts2)
  {
  }

  lemma PaidOutGrows(st: Stored, n: nat, record: nat -> Reply, cash: nat -> Reply, resolve: nat -> Reply, rows: Rows, cashouts: Ledger, rows': Rows, cashouts': Ledger)
    requires n < |st.seats| && PaidOut(st, n, record, cash, resolve, rows, cashouts) && SettledGrows(rows, cashouts, rows', cashouts')
    requires SeatPaid(st.seats[n], record(n), cash(n), resolve(n), rows', cashouts')
    ensures PaidOut(st, n + 1, record, cash, resolve, rows', cashouts')
  {
    forall i | 0 <= i < n && st.seats[i].stack > 0
      ensures SeatPaid(st.seats[i], record(i), cash(i), resolve(i), rows', cashouts')
    {
      assert SeatPaid(st.seats[i], record(i), cash(i), resolve(i), rows, cashouts);
    }
  }

  lemma RecordedAreSettled(st: Stored, record: nat -> Reply, cash: nat -> Reply, resolve: nat -> Reply, rows: Rows, cashouts: Ledger)
    requires PaidOut(st, |st.seats|, record, cash, resolve, rows, cashouts)
    requires forall j :: 0 <= j < |st.seats| && st.seats[j].stack > 0 ==> record(j) == Landed
    ensures forall seat :: seat in st.seats && seat.stack > 0 ==> seat.player in rows
  {
    forall seat | seat in st.seats && seat.stack > 0
      ensures seat.player in rows
    {
      var i :| 0 <= i < |st.seats| && st.seats[i] == seat;
      assert SeatPaid(st.seats[i], record(i), cash(i), resolve(i), rows, cashouts);
    }
  }

  // The three writes of one seat.
  lemma RecordKeepsFrom(st: Stored, seat: Seat, rows0: Rows, cashouts0: Ledger, rows: Rows, cashouts: Ledger)
    requires seat in st.seats && seat.stack > 0 && RowsFrom(st, rows0, cashouts0, rows, cashouts) && seat.player !in rows
    ensures var rows' := rows[seat.player := Row(seat.stack, st.version, false)];
      RowsFrom(st, rows0, cashouts0, rows', cashouts) && SettledGrows(rows, cashouts, rows', cashouts)
  {
  }

  lemma CashKeepsFrom(st: Stored, seat: Seat, rows0: Rows, cashouts0: Ledger, rows: Rows, cashouts: Ledger)
    requires seat in st.seats && seat.stack > 0 && RowsFrom(st, rows0, cashouts0, rows, cashouts)
    ensures var cashouts' := Post(cashouts, seat, st.version);
      && RowsFrom(st, rows0, cashouts0, rows, cashouts') && seat.player in cashouts'
      && forall rows1 :: SettledGrows(rows1, cashouts, rows, cashouts) ==> SettledGrows(rows1, cashouts, rows, cashouts')
  {
  }

  lemma ResolveKeepsFrom(st: Stored, seat: Seat, rows0: Rows, cashouts0: Ledger, rows: Rows, cashouts: Ledger)
    requires RowsFrom(st, rows0, cashouts0, rows, cashouts) && seat.player in rows && seat.player in cashouts
    ensures var rows' := rows[seat.player := rows[seat.player].(resolved := true)];
      RowsFrom(st, rows0, cashouts0, rows', cashouts) && SettledGrows(rows, cashouts, rows', cashouts)
  {
  }

  // Refunds of the first n seats: what was there stays; what is new is exactly a
  // positive stack of that player as read; and none that was credited is missing.
  ghost predicate Refunded(st: Stored, n: nat, replies: nat -> Reply, refunds0: Ledger, refunds: Ledger)
    requires n <= |st.seats|
  {
    && (forall p :: p in refunds0 ==> p in refunds && refunds[p] == refunds0[p])
    && (forall p :: p in refunds && p !in refunds0 ==> AsRead(st, p, refunds[p]))
    && (forall i :: 0 <= i < n && st.seats[i].stack > 0 && replies(i).Applied() ==> st.seats[i].player in refunds)
  }

  lemma RefundedStep(st: Stored, n: nat, replies: nat -> Reply, refunds0: Ledger, refunds: Ledger)
    requires n < |st.seats| && Refunded(st, n, replies, refunds0, refunds)
    ensures var seat := st.seats[n];
      Refunded(st, n + 1, replies, refunds0,
        if seat.stack > 0 && replies(n).Applied() then Post(refunds, seat, st.version) else refunds)
  {
  }

  lemma AllRefunded(st: Stored, replies: nat -> Reply, refunds0: Ledger, refunds: Ledger)
    requires Refunded(st, |st.seats|, replies, refunds0, refunds)
    requires forall i :: 0 <= i < |st.seats| && st.seats[i].stack > 0 ==> replies(i) == Landed
    ensures forall seat :: seat in st.seats && seat.stack > 0 ==> seat.player in refunds
  {
    forall seat | seat in st.seats && seat.stack > 0
      ensures seat.player in refunds
    {
      var i :| 0 <= i < |st.seats| && st.seats[i] == seat;
      assert replies(i).Applied();
    }
  }

  // One table and the stores a sweep of it touches. Players may have acted since
  // it was read.
  class Table {
    const mode: Mode
    var seats: seq<Seat>
    var version: nat
    var archived: Option<nat>
    var room: bool
    var refunds: map<PlayerId, Paid>
    var rows: map<PlayerId, Row>
    var cashouts: map<PlayerId, Paid>

    predicate WasRead(st: Stored)
      reads this
    {
      st.version <= version && (st.version == version ==> st.seats == seats)
    }

    // Whether this seat's money is safe if the table goes.
    predicate Settled(seat: Seat)
      reads this
    {
      seat.stack > 0 ==> if mode == Sandbox then seat.player in refunds else seat.player in rows
    }

    method Credit(seat: Seat, version: nat, reply: Reply) returns (ok: bool)
      modifies this`refunds
      ensures refunds == if reply.Applied() then Post(old(refunds), seat, version) else old(refunds)
      ensures ok <==> reply == Landed
    {
      if reply.Applied() && seat.player !in refunds {
        refunds := refunds[seat.player := Paid(seat.stack, version)];
      }
      ok := reply == Landed;
    }

    // Refunds every stack; one failure is enough to leave the table alone.
    method RefundSandboxAndArchive(st: Stored, replies: nat -> Reply, archive: Reply, delete: Reply) returns (done: bool)
      requires mode == Sandbox && WasRead(st)
      modifies this`refunds, this`archived, this`room
      ensures Refunded(st, |st.seats|, replies, old(refunds), refunds)
      ensures archived != old(archived) ==>
        archived == Some(version) && st.version == version && forall seat :: seat in seats ==> Settled(seat)
      ensures done <==>
        st.version == version && archive == Landed && forall i :: 0 <= i < |st.seats| && st.seats[i].stack > 0 ==> replies(i) == Landed
      ensures done ==> archived == Some(version)
      ensures room == (old(room) && !(done && delete.Applied()))
    {
      assert Refunded(st, 0, replies, refunds, refunds);
      hide Refunded;
      var failed := false;
      for i := 0 to |st.seats|
        invariant archived == old(archived) && room == old(room)
        invariant Refunded(st, i, replies, old(refunds), refunds)
        invariant !failed <==> forall j :: 0 <= j < i && st.seats[j].stack > 0 ==> replies(j) == Landed
      {
        RefundedStep(st, i, replies, old(refunds), refunds);
        if st.seats[i].stack <= 0 { continue; }
        var ok := Credit(st.seats[i], st.version, replies(i));
        if !ok {
          failed := true;
          continue;
        }
      }
      if failed { return false; }
      AllRefunded(st, replies, old(refunds), refunds);
      done := ArchiveTableAndRoom(st.version, archive, delete);
    }

    // Records every stack durably before paying it; only an unrecorded one leaves
    // the table alone.
    method SettleRealMoneyAndArchive(st: Stored, record: nat -> Reply, cash: nat -> Reply, resolve: nat -> Reply, archive: Reply, delete: Reply)
      returns (done: bool)
      requires mode == Real && WasRead(st)
      modifies this`rows, this`cashouts, this`archived, this`room
      ensures RowsFrom(st, old(rows), old(cashouts), rows, cashouts)
      ensures PaidOut(st, |st.seats|, record, cash, resolve, rows, cashouts)
      ensures archived != old(archived) ==>
        archived == Some(version) && st.version == version && forall seat :: seat in seats ==> Settled(seat)
      ensures done <==>
        st.version == version && archive == Landed && forall i :: 0 <= i < |st.seats| && st.seats[i].stack > 0 ==> record(i) == Landed
      ensures done ==> archived == Some(version)
      ensures room == (old(room) && !(done && delete.Applied()))
    {
      RowsFromSelf(st, rows, cashouts);
      hide RowsFrom, SettledGrows, SeatPaid;
      var failed := false;
      for i := 0 to |st.seats|
        invariant archived == old(archived) && room == old(room)
        invariant RowsFrom(st, old(rows), old(cashouts), rows, cashouts)
        invariant PaidOut(st, i, record, cash, resolve, rows, cashouts)
        invariant !failed <==> forall j :: 0 <= j < i && st.seats[j].stack > 0 ==> record(j) == Landed
      {
        if st.seats[i].stack <= 0 { continue; }
        ghost var rows1, cashouts1 := rows, cashouts;
        var recorded := SettleSeat(st, st.seats[i], record(i), cash(i), resolve(i), old(rows), old(cashouts));
        PaidOutGrows(st, i, record, cash, resolve, rows1, cashouts1, rows, cashouts);
        if !recorded {
          failed := true;
          continue;
        }
      }
      if failed { return false; }
      RecordedAreSettled(st, record, cash, resolve, rows, cashouts);
      done := ArchiveTableAndRoom(st.version, archive, delete);
    }

    method SettleSeat(st: Stored, seat: Seat, record: Reply, cash: Reply, resolve: Reply, ghost rows0: Rows, ghost cashouts0: Ledger)
      returns (recorded: bool)
      requires seat in st.seats && seat.stack > 0 && RowsFrom(st, rows0, cashouts0, rows, cashouts)
      modifies this`rows, this`cashouts
      ensures RowsFrom(st, rows0, cashouts0, rows, cashouts)
      ensures SettledGrows(old(rows), old(cashouts), rows, cashouts)
      ensures recorded <==> record == Landed
      ensures SeatPaid(seat, record, cash, resolve, rows, cashouts)
    {
      hide RowsFrom, SettledGrows;
      SettledSelf(rows, cashouts);
      if record.Applied() && seat.player !in rows {
        RecordKeepsFrom(st, seat, rows0, cashouts0, rows, cashouts);
        rows := rows[seat.player := Row(seat.stack, st.version, false)];
      }
      if record != Landed { return false; }
      ghost var rows1 := rows;
      if cash.Applied() {
        CashKeepsFrom(st, seat, rows0, cashouts0, rows, cashouts);
        cashouts := Post(cashouts, seat, st.version);
      }
      if cash != Landed { return true; }
      if resolve.Applied() {
        ResolveKeepsFrom(st, seat, rows0, cashouts0, rows, cashouts);
        SettledChain(old(rows), old(cashouts), rows1, cashouts, rows[seat.player := rows[seat.player].(resolved := true)], cashouts);
        rows := rows[seat.player := rows[seat.player].(resolved := true)];
      }
      recorded := true;
    }

    // One stale table of a sweep. What cannot be told to be sandbox or real money
    // is left alone.
    method Visit(st: Stored, lookup: Reply, first: nat -> Reply, cash: nat -> Reply, resolve: nat -> Reply, archive: Reply, delete: Reply)
      requires WasRead(st)
      modifies this`refunds, this`rows, this`cashouts, this`archived, this`room
      ensures mode == Unrecognized || !old(room) || lookup != Landed ==>
        archived == old(archived) && room == old(room) && refunds == old(refunds) && rows == old(rows) && cashouts == old(cashouts)
      ensures mode == Sandbox && old(room) && lookup == Landed ==> Refunded(st, |st.seats|, first, old(refunds), refunds)
      ensures mode == Real && old(room) && lookup == Landed ==>
        RowsFrom(st, old(rows), old(cashouts), rows, cashouts) && PaidOut(st, |st.seats|, first, cash, resolve, rows, cashouts)
      ensures
        mode != Unrecognized && old(room) && lookup == Landed && st.version == version && archive == Landed &&
        (forall i :: 0 <= i < |st.seats| ==> first(i) == Landed) ==>
          archived == Some(version) && room == !delete.Applied()
      ensures archived != old(archived) ==>
        archived == Some(version) && st.version == version && forall seat :: seat in seats ==> Settled(seat)
      ensures mode == Real ==> refunds == old(refunds)
      ensures mode == Sandbox ==> rows == old(rows) && cashouts == old(cashouts)
      ensures old(room) && !room ==> archived == Some(version)
    {
      if lookup != Landed || !room { return; }
      match mode {
        case Sandbox => var done := RefundSandboxAndArchive(st, first, archive, delete);
        case Real => var done := SettleRealMoneyAndArchive(st, first, cash, resolve, archive, delete);
        case Unrecognized => return;
      }
    }

    // Archives at the version that was settled, if that is still the table's, and
    // only then lets the room go.
    method ArchiveTableAndRoom(expected: nat, archive: Reply, delete: Reply) returns (done: bool)
      modifies this`archived, this`room
      ensures archived == if expected == version && archive.Applied() then Some(expected) else old(archived)
      ensures done <==> expected == version && archive == Landed
      ensures room == (old(room) && !(done && delete.Applied()))
    {
      if !archive.Applied() || version != expected { return false; }
      archived := Some(expected);
      if archive != Landed { return false; }
      if delete.Applied() { room := false; }
      done := true;
    }
  }
}
