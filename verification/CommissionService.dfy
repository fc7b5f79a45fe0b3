/**
 The commission engine (services/onboarding/commission_engine.go) as the object it
 is: records updated in place around calls to the ledger client. Each method is
 proved to take the durable world where the function of `Commissions` takes it, and
 to keep its laws.
 */
module CommissionServices {
  import opened Prelude
  import opened Ids
  import opened DevLedger
  import L = Ledger
  import opened Commissions
  import K = CommissionLaws

  class CommissionEngine {
    const lc: DevClient
    var records: map<Key, Record>

    constructor (lc: DevClient)
      requires lc.Valid()
      ensures Valid() && this.lc == lc && Durable() == World(map[], lc.Model(), Forever)
    {
      this.lc := lc;
      records := map[];
    }

    ghost function Durable(): World
      reads this, lc
    {
      World(records, lc.Model(), Forever)
    }

    ghost predicate Valid()
      reads this, lc
    {
      lc.Valid()
    }

    method EnsureAccount(a: AccountId)
      requires Valid()
      modifies lc
      ensures Valid() && Durable() == Ensure(old(Durable()), a)
    {
      if a !in lc.accounts { var _ := lc.CreateAccounts([L.AccountSpec(a, COMMISSION_ACCOUNT)]); }
    }

    method EnsureAccounts(agent: string)
      requires Valid()
      modifies lc
      ensures Valid() && Durable() == EnsureBoth(old(Durable()), agent)
    {
      EnsureAccount(CommissionPool);
      EnsureAccount(AgentCommission(agent));
    }

    /** Sums what the request pays at every level that has a rate. */
    method TotalDue(req: Request, rates: map<nat, nat>) returns (total: nat)
      ensures total == Total(req, rates)
    {
      total := 0;
      for i := 0 to |req.earners|
        invariant total == TotalUpTo(req, rates, i)
      {
        if i + 1 in rates { total := (total + ComputeKobo(req.base, rates[i + 1])) % UINT64; }
      }
    }

    method AccrueAll(req: Request, env: Env) returns (ok: bool)
      requires Valid()
      modifies this, lc
      ensures Valid() && (Durable(), ok) == Accrue(old(Durable()), req, env)
      ensures forall owed :: old(K.Inv(Durable(), owed)) && K.Steady(req, env, owed) ==> K.Inv(Durable(), owed)
    {
      hide K.Inv, K.Steady, L.Direct;
      forall owed | K.Inv(Durable(), owed) && K.Steady(req, env, owed) ensures K.Inv(Accrue(Durable(), req, env).0, owed) {
        K.AccrueKeeps(Durable(), req, env, owed);
      }
      if req.earners == [] || req.earners[0].agent == "" || req.reference == "" || req.base == 0 { return false; }
      var total := TotalDue(req, env.rates);
      if total == 0 { return false; }
      EnsureAccount(CommissionTreasury);
      EnsureAccounts(req.earners[0].agent);
      var funded := lc.Transfer(FundId(req, total), FundTransfer(total));
      if funded.Err? { return false; }
      ok := AccrueLevels(req, env);
    }

    method AccrueLevels(req: Request, env: Env) returns (ok: bool)
      requires Valid()
      modifies this, lc
      ensures Valid() && (Durable(), ok) == AccrueFrom(old(Durable()), req, env, 0)
    {
      hide AccrueOne;
      for i := 0 to |req.earners|
        invariant Valid() && AccrueFrom(old(Durable()), req, env, 0) == AccrueFrom(Durable(), req, env, i)
      {
        if i + 1 in env.rates {
          var one := AccrueLevel(req.earners[i], PayloadAt(req, env, i), env);
          if !one { return false; }
        }
      }
      ok := true;
    }

    method AccrueLevel(e: Earner, p: Payload, env: Env) returns (ok: bool)
      requires Valid()
      modifies this, lc
      ensures Valid() && (Durable(), ok) == AccrueOne(old(Durable()), e, p, env)
    {
      var k := KeyFor(e, p);
      if k in records && env.now <= records[k].expiresAt {
        var existing := records[k];
        if existing.payload != p { return false; }
        if existing.status == ClawedBack { return true; }
        if PostId(k) in lc.transfers { return true; }
      }
      EnsureAccounts(e.agent);
      ok := RunSaga(e, p, env);
    }

    method RunSaga(e: Earner, p: Payload, env: Env) returns (ok: bool)
      requires Valid()
      modifies this, lc
      ensures Valid() && (Durable(), ok) == Saga(old(Durable()), e, p, env)
    {
      var k := KeyFor(e, p);
      var held := lc.PendingTransfer(HoldId(k), HoldTransfer(p));
      if held.Err? {
        if held.error != L.TransferIdConflict || PostId(k) !in lc.transfers { return false; }
        ok := MarkPosted(e, p, env);
      } else {
        ok := PostThenMark(e, p, env);
      }
    }

    method PostThenMark(e: Earner, p: Payload, env: Env) returns (ok: bool)
      requires Valid()
      modifies this, lc
      ensures Valid() && (Durable(), ok) == PostAndMark(old(Durable()), e, p, env)
    {
      hide L.Post, L.Void, Mark;
      var k := KeyFor(e, p);
      var posted := lc.PostPendingAs(HoldId(k), PostId(k), p.amount);
      if posted.Err? {
        var _ := lc.VoidPending(HoldId(k));
        records := records - {k};
        return false;
      }
      ok := MarkPosted(e, p, env);
    }

    method MarkPosted(e: Earner, p: Payload, env: Env) returns (ok: bool)
      requires Valid()
      modifies this`records
      ensures Valid() && (Durable(), ok) == Mark(old(Durable()), e, p, env)
    {
      var r := RecordFor(e, p, env);
      ok := !env.markFault(p.level);
      if ok { records := records[KeyOf(r) := r]; }
    }

    method ClawbackAll(tenant: string, reference: string, listed: seq<Record>, fault: Key -> bool) returns (ok: bool)
      requires Valid()
      modifies this, lc
      ensures Valid() && (Durable(), ok) == Clawback(old(Durable()), tenant, reference, listed, fault)
      ensures forall owed :: old(K.Inv(Durable(), owed)) && old(K.AllStored(Durable(), listed)) ==> K.Inv(Durable(), owed)
    {
      hide K.Inv;
      forall owed | K.Inv(Durable(), owed) && K.AllStored(Durable(), listed) ensures K.Inv(Clawback(Durable(), tenant, reference, listed, fault).0, owed) {
        K.ClawbackKeeps(Durable(), tenant, reference, listed, fault, owed);
      }
      if reference == "" { return false; }
      ghost var start := Durable();
      for i := 0 to |listed|
        invariant Valid()
        invariant ClawFrom(start, tenant, reference, listed, fault, 0) == ClawFrom(Durable(), tenant, reference, listed, fault, i)
      {
        if Targeted(listed[i], tenant, reference) {
          var one := ClawbackOne(listed[i], fault(KeyOf(listed[i])));
          if !one { return false; }
        }
      }
      ok := true;
    }

    method ClawbackOne(r: Record, fault: bool) returns (ok: bool)
      requires Valid()
      modifies this, lc
      ensures Valid() && (Durable(), ok) == ClawOne(old(Durable()), r, fault)
    {
      EnsureAccounts(r.payload.agent);
      var reversed := lc.Transfer(ClawbackId(KeyOf(r)), ReversalTransfer(r.payload));
      if reversed.Err? && reversed.error != L.TransferIdConflict { return false; }
      if !fault { records := records[KeyOf(r) := r.(status := ClawedBack)]; }
      ok := !fault;
    }
  }
}
