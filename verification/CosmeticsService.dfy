// The cosmetic purchase service over its mutable rows. Each method's contract
// says which steps of the machine it took, one per answer from outside.
module CosmeticsService {
  import opened Sums
  import opened Cosmetics

  // The history row and the ownership row of one item, and the two-row
  // transactions over them. Each reports whether its conditions held.
  class Rows {
    var ent: Option<Ent>
    var recs: map<Idem, Status>

    method CreateSandboxReservation(i: Idem, reply: Reply) returns (met: bool)
      modifies this
      ensures met <==> old(ent).None? && i !in old(recs)
      ensures ent == if met && reply.Applied() then Some(Ent(Bought(i), false)) else old(ent)
      ensures recs == if met && reply.Applied() then old(recs)[i := Processing] else old(recs)
    {
      met := ent.None? && i !in recs;
      if met && reply.Applied() {
        ent, recs := Some(Ent(Bought(i), false)), recs[i := Processing];
      }
    }

    method ConfirmSandbox(i: Idem, reply: Reply) returns (met: bool)
      modifies this
      ensures met <==> i in old(recs) && old(recs)[i] == Processing && old(ent) == Some(Ent(Bought(i), false))
      ensures ent == if met && reply.Applied() then Some(Ent(Bought(i), true)) else old(ent)
      ensures recs == if met && reply.Applied() then old(recs)[i := Confirmed] else old(recs)
    {
      met := i in recs && recs[i] == Processing && ent == Some(Ent(Bought(i), false));
      if met && reply.Applied() {
        ent, recs := Some(Ent(Bought(i), true)), recs[i := Confirmed];
      }
    }

    method CancelSandboxReservation(i: Idem, reply: Reply)
      modifies this
      ensures var met := i in old(recs) && old(recs)[i] == Processing && old(ent) == Some(Ent(Bought(i), false)) && reply.Applied();
        && ent == (if met then None else old(ent))
        && recs == (if met then old(recs) - {i} else old(recs))
    {
      if i in recs && recs[i] == Processing && ent == Some(Ent(Bought(i), false)) && reply.Applied() {
        ent, recs := None, recs - {i};
      }
    }

    method BeginRefundRows(i: Idem, reply: Reply) returns (met: bool)
      modifies this
      ensures met <==> i in old(recs) && old(recs)[i] == Confirmed && old(ent).Some? && old(ent).value.owner == Bought(i)
      ensures ent == if met && reply.Applied() then None else old(ent)
      ensures recs == if met && reply.Applied() then old(recs)[i := Refunding] else old(recs)
    {
      met := i in recs && recs[i] == Confirmed && ent.Some? && ent.value.owner == Bought(i);
      if met && reply.Applied() {
        ent, recs := None, recs[i := Refunding];
      }
    }

    method CompleteRefundRow(i: Idem, reply: Reply) returns (met: bool)
      modifies this
      ensures ent == old(ent)
      ensures met <==> i in old(recs) && old(recs)[i] == Refunding
      ensures recs == if met && reply.Applied() then old(recs)[i := Refunded] else old(recs)
    {
      met := i in recs && recs[i] == Refunding;
      if met && reply.Applied() {
        recs := recs[i := Refunded];
      }
    }

    // Create-only. A repeat grant of an item that a second read finds active is a
    // success that writes nothing.
    method PutGrant(put: Reply, get: Reply) returns (ok: bool)
      modifies this
      ensures recs == old(recs)
      ensures ent == if old(ent).None? && put.Applied() then Some(Ent(Granted, true)) else old(ent)
      ensures ok <==>
        if old(ent).None? then put == Landed else put.Applied() && get == Landed && old(ent).value.active
    {
      if !put.Applied() { return false; }
      if ent.Some? { return get == Landed && ent.value.active; }
      ent := Some(Ent(Granted, true));
      ok := put == Landed;
    }
  }

  class Wallet {
    var debits: map<Idem, nat>
    var credits: map<Idem, nat>

    method DebitOnce(i: Idem, price: nat, reply: Reply) returns (rejected: bool)
      modifies this`debits
      ensures rejected <==> reply == Rejected && i !in old(debits)
      ensures debits == if rejected || reply == Refused || i in old(debits) then old(debits) else old(debits)[i := price]
    {
      rejected := reply == Rejected && i !in debits;
      if !rejected && reply != Refused && i !in debits {
        debits := debits[i := price];
      }
    }

    method CreditOnce(i: Idem, price: nat, reply: Reply)
      modifies this`credits
      ensures credits == if !reply.Applied() || i in old(credits) then old(credits) else old(credits)[i := price]
    {
      if reply.Applied() && i !in credits {
        credits := credits[i := price];
      }
    }
  }

  class Service {
    const price: nat
    const rows: Rows
    const wallet: Wallet

    constructor (price: nat, rows: Rows, wallet: Wallet)
      ensures this.price == price && this.rows == rows && this.wallet == wallet
    {
      this.price, this.rows, this.wallet := price, rows, wallet;
    }

    ghost function State(): Shared
      reads this, rows, wallet
    {
      Shared(price, rows.ent, rows.recs, wallet.debits, wallet.credits)
    }

    // Debit under the purchase's own key, then confirm; only a definitive
    // refusal gives the reservation back.
    method DebitAndConfirm(i: Idem, envs: seq<Env>) returns (result: Result, ghost n: nat)
      requires |envs| >= 4
      modifies rows, wallet
      ensures n <= |envs| && (State(), Done(result)) == Solo(old(State()), Debiting(i), envs[..n])
    {
      ghost var s := State();
      var rejected := wallet.DebitOnce(i, price, envs[0].reply);
      if rejected {
        rows.CancelSandboxReservation(i, envs[1].reply);
        SoloTwo(s, Debiting(i), envs);
        return Error, 2;
      }
      if envs[0].reply == Refused || envs[0].reply == Lost {
        SoloOne(s, Debiting(i), envs);
        return Error, 1;
      }
      assert Advance(s, Debiting(i), envs[0]) == (State(), Confirming(i));
      result, n := ConfirmOrRecheck(i, envs[1..]);
      SoloFirst(s, Debiting(i), envs, n + 1);
      n := n + 1;
    }

    // A confirm that finds its conditions gone succeeds only if somebody else
    // already confirmed.
    method ConfirmOrRecheck(i: Idem, envs: seq<Env>) returns (result: Result, ghost n: nat)
      requires |envs| >= 3
      modifies rows
      ensures n <= |envs| && (State(), Done(result)) == Solo(old(State()), Confirming(i), envs[..n])
    {
      ghost var s, pc := State(), Confirming(i);
      SoloOne(s, pc, envs);
      if envs[0].reply == Refused || envs[0].reply == Rejected { return Error, 1; }
      var met := rows.ConfirmSandbox(i, envs[0].reply);
      if met { return if envs[0].reply == Landed then Owned(i) else Error, 1; }
      SoloTwo(s, pc, envs);
      if !(envs[1].reply == Landed && i in rows.recs && rows.recs[i] == Confirmed) { return Error, 2; }
      SoloThree(s, pc, envs);
      var owned := envs[2].reply == Landed && rows.ent.Some? && rows.ent.value.active;
      result, n := if owned then Owned(i) else Error, 3;
    }

    // Reserve before any money moves. An occupied slot is answered if it is this
    // very purchase, resumed if it is a purchase in flight, and refused otherwise.
    method CreateSandbox(i: Idem, envs: seq<Env>) returns (result: Result, ghost n: nat)
      requires |envs| >= 7
      modifies rows, wallet
      ensures n <= |envs| && (State(), Done(result)) == Solo(old(State()), Reserving(i), envs[..n])
    {
      hide OnReadEnt, OnDebiting, Solo;
      ghost var s, pc := State(), Reserving(i);
      SoloOne(s, pc, envs);
      if envs[0].reply == Refused || envs[0].reply == Rejected { return Error, 1; }
      var met := rows.CreateSandboxReservation(i, envs[0].reply);
      if met && envs[0].reply == Lost { return Error, 1; }
      if met {
        assert Advance(s, pc, envs[0]) == (State(), Debiting(i));
        result, n := DebitAndConfirm(i, envs[1..]);
      } else {
        assert Advance(s, pc, envs[0]) == (State(), ReadEnt(i));
        result, n := Resume(i, envs[1..]);
      }
      SoloFirst(s, pc, envs, n + 1);
      n := n + 1;
    }

    method Resume(i: Idem, envs: seq<Env>) returns (result: Result, ghost n: nat)
      requires |envs| >= 6
      modifies rows, wallet
      ensures n <= |envs| && (State(), Done(result)) == Solo(old(State()), ReadEnt(i), envs[..n])
    {
      ghost var s, pc := State(), ReadEnt(i);
      SoloOne(s, pc, envs);
      if envs[0].reply != Landed || rows.ent.None? || !rows.ent.value.owner.Bought? { return Error, 1; }
      var ent := rows.ent.value;
      var j := ent.owner.idem;
      SoloTwo(s, pc, envs);
      if envs[1].reply != Landed { return Error, 2; }
      if ent.active {
        var same := j in rows.recs && rows.recs[j] == Confirmed && j == i;
        return if same then Owned(i) else Error, 2;
      }
      if j !in rows.recs || rows.recs[j] != Processing { return Error, 2; }
      assert Solo(s, pc, envs[..2]) == (State(), Debiting(j));
      result, n := DebitAndConfirm(j, envs[2..]);
      assert envs[..n + 2] == envs[..2] + envs[2..][..n];
      SoloSplit(s, pc, envs[..2], envs[2..][..n]);
      n := n + 2;
    }

    method Refresh(i: Idem, envs: seq<Env>) returns (result: Result, ghost n: nat)
      requires |envs| >= 5
      modifies rows, wallet
      ensures n <= |envs| && (State(), Done(result)) == Solo(old(State()), RefreshLoad(i), envs[..n])
    {
      ghost var s, pc := State(), RefreshLoad(i);
      SoloOne(s, pc, envs);
      if envs[0].reply != Landed || i !in rows.recs { return Error, 1; }
      if rows.recs[i] != Processing { return Read(rows.recs[i]), 1; }
      assert Advance(s, pc, envs[0]) == (State(), Debiting(i));
      result, n := DebitAndConfirm(i, envs[1..]);
      SoloFirst(s, pc, envs, n + 1);
      n := n + 1;
    }

    // Closes ownership before any credit; a refund already under way is resumed.
    method Refund(i: Idem, envs: seq<Env>) returns (result: Result, ghost n: nat)
      requires |envs| >= 7
      modifies rows, wallet
      ensures n <= |envs| && (State(), Done(result)) == Solo(old(State()), RefundLoad(i), envs[..n])
      ensures i in old(rows.recs) && old(rows.recs)[i] == Refunding && (forall e :: e in envs[..3] ==> e.reply == Landed) ==>
        && result == RefundDone(i) && rows.ent == old(rows.ent) && rows.recs == old(rows.recs)[i := Refunded]
        && wallet.credits == (if i in old(wallet.credits) then old(wallet.credits) else old(wallet.credits)[i := price])
      ensures
        i in old(rows.recs) && old(rows.recs)[i] == Confirmed && old(rows.ent) == Some(Ent(Bought(i), true)) &&
        (forall e :: e in envs[..5] ==> e.reply == Landed && !e.inUse) ==>
          && result == RefundDone(i) && rows.ent == None && rows.recs == old(rows.recs)[i := Refunded]
          && wallet.credits == (if i in old(wallet.credits) then old(wallet.credits) else old(wallet.credits)[i := price])
      ensures wallet.debits == old(wallet.debits)
    {
      hide OnReadEnt, OnDebiting, OnCrediting, OnRefundReread, Solo;
      ghost var s, pc := State(), RefundLoad(i);
      SoloOne(s, pc, envs);
      if envs[0].reply != Landed || i !in rows.recs { return Error, 1; }
      match rows.recs[i] {
        case Refunded => return Error, 1;
        case Processing => return Error, 1;
        case Refunding =>
          assert Advance(s, pc, envs[0]) == (State(), Crediting(i));
          result, n := CreditAndComplete(i, envs[1..]);
          SoloFirst(s, pc, envs, n + 1);
          n := n + 1;
        case Confirmed =>
          SoloTwo(s, pc, envs);
          if !(envs[1].reply == Landed && rows.ent == Some(Ent(Bought(i), true)) && !envs[1].inUse) { return Error, 2; }
          assert Solo(s, pc, envs[..2]) == (State(), BeginningRefund(i));
          result, n := CloseAndCredit(i, envs[2..]);
          assert envs[..n + 2] == envs[..2] + envs[2..][..n];
          SoloSplit(s, pc, envs[..2], envs[2..][..n]);
          n := n + 2;
      }
    }

    method CloseAndCredit(i: Idem, envs: seq<Env>) returns (result: Result, ghost n: nat)
      requires |envs| >= 5
      modifies rows, wallet
      ensures n <= |envs| && (State(), Done(result)) == Solo(old(State()), BeginningRefund(i), envs[..n])
      ensures wallet.debits == old(wallet.debits)
      ensures
        i in old(rows.recs) && old(rows.recs)[i] == Confirmed && old(rows.ent) == Some(Ent(Bought(i), true)) &&
        envs[0].reply == Landed && envs[1].reply == Landed && envs[2].reply == Landed ==>
          && result == RefundDone(i) && rows.ent == None && rows.recs == old(rows.recs)[i := Refunded]
          && wallet.credits == (if i in old(wallet.credits) then old(wallet.credits) else old(wallet.credits)[i := price])
    {
      hide OnReadEnt, OnDebiting, OnCrediting, OnRefundReread, Solo;
      ghost var s, pc := State(), BeginningRefund(i);
      var met := rows.BeginRefundRows(i, envs[0].reply);
      if met && envs[0].reply == Landed {
        assert Advance(s, pc, envs[0]) == (State(), Crediting(i));
        result, n := CreditAndComplete(i, envs[1..]);
      } else {
        assert Advance(s, pc, envs[0]) == (State(), RefundReread(i));
        result, n := RereadAndCredit(i, envs[1..]);
      }
      SoloFirst(s, pc, envs, n + 1);
      n := n + 1;
    }

    // The close may have landed without saying so: the row tells.
    method RereadAndCredit(i: Idem, envs: seq<Env>) returns (result: Result, ghost n: nat)
      requires |envs| >= 4
      modifies rows, wallet
      ensures n <= |envs| && (State(), Done(result)) == Solo(old(State()), RefundReread(i), envs[..n])
      ensures wallet.debits == old(wallet.debits)
    {
      ghost var s, pc := State(), RefundReread(i);
      SoloOne(s, pc, envs);
      if !(envs[0].reply == Landed && i in rows.recs && rows.recs[i] == Refunding) { return Error, 1; }
      assert Advance(s, pc, envs[0]) == (State(), Crediting(i));
      result, n := CreditAndComplete(i, envs[1..]);
      SoloFirst(s, pc, envs, n + 1);
      n := n + 1;
    }

    method CreditAndComplete(i: Idem, envs: seq<Env>) returns (result: Result, ghost n: nat)
      requires |envs| >= 3
      modifies rows, wallet
      ensures n <= |envs| && (State(), Done(result)) == Solo(old(State()), Crediting(i), envs[..n])
      ensures result == RefundDone(i) ==> i in wallet.credits && i in rows.recs && rows.recs[i] == Refunded
      ensures wallet.debits == old(wallet.debits) && rows.ent == old(rows.ent)
      ensures envs[0].reply == Landed && envs[1].reply == Landed && i in old(rows.recs) && old(rows.recs)[i] == Refunding ==>
        && result == RefundDone(i) && rows.recs == old(rows.recs)[i := Refunded]
        && wallet.credits == (if i in old(wallet.credits) then old(wallet.credits) else old(wallet.credits)[i := price])
    {
      ghost var s, pc := State(), Crediting(i);
      SoloOne(s, pc, envs);
      wallet.CreditOnce(i, price, envs[0].reply);
      if envs[0].reply != Landed { return Error, 1; }
      SoloTwo(s, pc, envs);
      if !envs[1].reply.Applied() { return Error, 2; }
      var met := rows.CompleteRefundRow(i, envs[1].reply);
      if met { return if envs[1].reply == Landed then RefundDone(i) else Error, 2; }
      SoloThree(s, pc, envs);
      var done := envs[2].reply == Landed && i in rows.recs && rows.recs[i] == Refunded;
      result, n := if done then RefundDone(i) else Error, 3;
    }
  }

  lemma SoloOne(s: Shared, pc: Pc, envs: seq<Env>)
    requires WellFormed(pc) && |envs| >= 1
    ensures Solo(s, pc, envs[..1]) == Advance(s, pc, envs[0])
  {
    hide Advance;
    assert envs[..1][..0] == [];
  }

  lemma SoloTwo(s: Shared, pc: Pc, envs: seq<Env>)
    requires WellFormed(pc) && |envs| >= 2
    ensures var x := Advance(s, pc, envs[0]); Solo(s, pc, envs[..2]) == Advance(x.0, x.1, envs[1])
  {
    hide Advance;
    SoloOne(s, pc, envs);
    assert envs[..2][..1] == envs[..1];
  }

  lemma SoloThree(s: Shared, pc: Pc, envs: seq<Env>)
    requires WellFormed(pc) && |envs| >= 3
    ensures var x := Advance(s, pc, envs[0]);
      var y := Advance(x.0, x.1, envs[1]);
      Solo(s, pc, envs[..3]) == Advance(y.0, y.1, envs[2])
  {
    hide Advance;
    SoloTwo(s, pc, envs);
    assert envs[..3][..2] == envs[..2];
  }
}
