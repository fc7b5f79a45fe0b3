/**
 The float service (services/presumptive/float.go) as the object it is: movements
 updated in place around calls to the ledger client. Each method is proved to take
 the durable world where the function of `Floats` takes it, and to keep its laws.
 */
module FloatServices {
  import opened Prelude
  import opened Ids
  import opened DevLedger
  import L = Ledger
  import opened Floats
  import K = FloatLaws
  import O = FloatOutcomes

  class FloatService {
    const lc: DevClient
    var movements: map<Key, Movement>
    var enlisted: set<string>

    constructor (lc: DevClient)
      requires lc.Valid()
      ensures Valid() && this.lc == lc && Durable() == World(map[], {}, lc.Model(), Forever)
    {
      this.lc := lc;
      movements, enlisted := map[], {};
    }

    ghost function Durable(): World
      reads this, lc
    {
      World(movements, enlisted, lc.Model(), Forever)
    }

    ghost predicate Valid()
      reads this, lc
    {
      lc.Valid()
    }

    method Put(m: Movement, fault: bool)
      requires Valid()
      modifies this`movements
      ensures Valid() && Durable() == Save(old(Durable()), m, fault)
    {
      if !fault { movements := movements[KeyOf(m) := m]; }
    }

    method OpenFloat(agent: string, fault: bool) returns (ok: bool)
      requires Valid()
      modifies this`enlisted, lc
      ensures Valid() && Durable() == Open(old(Durable()), agent, fault) && ok == (agent in enlisted)
      ensures forall strict :: old(K.Inv(Durable(), strict)) ==> K.Inv(Durable(), strict)
    {
      hide K.Inv;
      forall strict | K.Inv(Durable(), strict) ensures K.Inv(Open(Durable(), agent, fault), strict) { K.OpenFloatKeeps(Durable(), agent, fault, strict); }
      if agent in enlisted { return true; }
      var _ := lc.CreateAccounts([L.AccountSpec(AgentFloat(agent), FLOAT_ACCOUNT)]);
      if fault { return false; }
      enlisted := enlisted + {agent};
      ok := true;
    }

    method TreasuryAccount()
      requires Valid()
      modifies lc
      ensures Valid() && Durable() == EnsureTreasury(old(Durable()))
    {
      if FloatTreasury !in lc.accounts { var _ := lc.CreateAccounts([L.AccountSpec(FloatTreasury, FLOAT_ACCOUNT)]); }
    }

    method MoveFloat(kind: MovementKind, agent: string, amount: nat, reference: string, f: Faults)
        returns (reply: Option<Movement>)
      requires Valid()
      modifies this, lc
      ensures Valid() && (Durable(), reply) == Move(old(Durable()), kind, agent, amount, reference, f)
      ensures forall strict :: old(K.Inv(Durable(), strict)) ==> K.Inv(Durable(), strict)
      // A new debit that answers has lowered the agent's posted balance by its amount, a new top-up raised it.
      ensures old(K.Inv(Durable(), false)) && Key(kind, reference) !in old(movements) && reply.Some? ==>
                O.Net(lc.Model(), AgentFloat(agent))
                == old(O.Net(lc.Model(), AgentFloat(agent))) + (match kind case Topup => amount case Debit => 0 - amount)
    {
      hide K.Inv;
      if K.Inv(Durable(), false) && Key(kind, reference) !in movements && Move(Durable(), kind, agent, amount, reference, f).1.Some? {
        O.AgentBalanceMoves(Durable(), kind, agent, amount, reference, f);
      }
      forall strict | K.Inv(Durable(), strict) ensures K.Inv(Move(Durable(), kind, agent, amount, reference, f).0, strict) { K.MoveKeeps(Durable(), kind, agent, amount, reference, f, strict); }
      if reference == "" { return None; }
      if Key(kind, reference) in movements { return Some(movements[Key(kind, reference)]); }
      var ok := OpenFloat(agent, f.account);
      if !ok { return None; }
      TreasuryAccount();
      reply := PlaceAndSettle(Movement(kind, reference, agent, amount, Pending), f);
    }

    method PlaceAndSettle(m: Movement, f: Faults) returns (reply: Option<Movement>)
      requires Valid()
      modifies this`movements, lc
      ensures Valid() && (Durable(), reply) == Place(old(Durable()), m, f)
    {
      hide L.Hold, L.Void;
      var held := lc.PendingTransfer(HoldId(m), HoldTransfer(m));
      if held.Err? { return None; }
      Put(m, f.record);
      if f.record {
        var _ := lc.VoidPending(HoldId(m));
        return None;
      }
      reply := SettleHold(m, f);
    }

    method SettleHold(m: Movement, f: Faults) returns (reply: Option<Movement>)
      requires Valid()
      modifies this`movements, lc
      ensures Valid() && (Durable(), reply) == Settle(old(Durable()), m, f)
    {
      var posted := lc.PostPendingAs(HoldId(m), PostId(m), m.amount);
      if posted.Err? {
        var _ := lc.VoidPending(HoldId(m));
        Put(m.(status := Voided), f.voidMark);
        return None;
      }
      Put(m.(status := Posted), f.mark);
      reply := if f.mark then None else Some(m.(status := Posted));
    }

    method SweepMovement(m: Movement, f: Faults)
      requires Valid()
      modifies this`movements, lc
      ensures Valid() && Durable() == SweepOne(old(Durable()), m, f)
    {
      hide L.Post, L.Void;
      if m.status != Pending { return; }
      var posted := lc.PostPendingAs(HoldId(m), PostId(m), m.amount);
      if posted.Ok? {
        Put(m.(status := Posted), f.mark);
      } else {
        var voided := lc.VoidPending(HoldId(m));
        if voided.Ok? { Put(m.(status := Voided), f.voidMark); }
      }
    }

    method SweepFloatMovements(listed: seq<Movement>, f: Key -> Faults)
      requires Valid()
      modifies this`movements, lc
      ensures Valid() && Durable() == Sweep(old(Durable()), listed, f)
      ensures forall strict :: old(K.Inv(Durable(), strict)) && old(K.Listed(Durable(), listed)) ==> K.Inv(Durable(), strict)
    {
      hide K.Inv;
      forall strict | K.Inv(Durable(), strict) && K.Listed(Durable(), listed) ensures K.Inv(Sweep(Durable(), listed, f), strict) { K.SweepKeeps(Durable(), listed, f, strict); }
      for i := 0 to |listed|
        invariant Valid() && Durable() == Sweep(old(Durable()), listed[..i], f)
      {
        assert listed[..i + 1][..i] == listed[..i];
        SweepMovement(listed[i], f(KeyOf(listed[i])));
      }
      assert listed[..|listed|] == listed;
    }
  }
}
