/** What an accrual pays and where the money comes from: amounts, and funding against payments. */
module CommissionFunding {
  import opened Prelude
  import opened Ids
  import L = Ledger
  import opened LedgerLaws
  import opened Commissions
  import opened CommissionLaws

  /** The commission is the exact share of the base if and only if the product fits in 64 bits. */
  lemma {:induction false} ComputeKoboExactIff(base: nat, bps: nat)
    ensures ComputeKobo(base, bps) == base * bps / 10000 <==> base * bps < UINT64
  {
    WrappedShare(base * bps);
  }

  lemma {:induction false} WrappedShare(x: nat)
    ensures x % UINT64 / 10000 == x / 10000 <==> x < UINT64
  {
    if x >= UINT64 {
      assert x % UINT64 <= x - UINT64;
      assert x / 10000 >= (x % UINT64 + UINT64) / 10000;
    }
  }

  // ---------------------------------------------------------------- a level is paid what it is due

  /** A call that does not name a commission hold does not create it. */
  lemma {:induction false} DoFrame(w: World, op: L.Op, k: Key)
    requires !Names(op, HoldId(k)) && HoldId(k) !in w.books.transfers
    ensures HoldId(k) !in Do(w, op).books.transfers
  {
    StepFrame(w.books, op, HoldId(k));
  }

  lemma {:induction false} EnsureBothFrame(w: World, agent: string, k: Key)
    requires HoldId(k) !in w.books.transfers
    ensures HoldId(k) !in EnsureBoth(w, agent).books.transfers
  {
    DoFrame(w, L.DoCreate([L.AccountSpec(CommissionPool, COMMISSION_ACCOUNT)]), k);
    var w1 := Ensure(w, CommissionPool);
    DoFrame(w1, L.DoCreate([L.AccountSpec(AgentCommission(agent), COMMISSION_ACCOUNT)]), k);
  }

  lemma {:induction false} PostFrame(w: World, e: Earner, p: Payload, env: Env, other: Key)
    requires HoldId(other) !in w.books.transfers && other != KeyFor(e, p)
    ensures HoldId(other) !in PostAndMark(w, e, p, env).0.books.transfers
  {
    hide L.Step, L.Post;
    var k := KeyFor(e, p);
    DoFrame(w, L.DoPost(HoldId(k), PostId(k), p.amount), other);
    DoFrame(w, L.DoVoid(HoldId(k)), other);
  }

  lemma {:induction false} SagaFrame(w: World, e: Earner, p: Payload, env: Env, other: Key)
    requires HoldId(other) !in w.books.transfers && other != KeyFor(e, p)
    ensures HoldId(other) !in Saga(w, e, p, env).0.books.transfers
  {
    var op := L.DoHold(HoldId(KeyFor(e, p)), HoldTransfer(p));
    DoFrame(w, op, other);
    PostFrame(Do(w, op), e, p, env, other);
  }

  /** One level's saga leaves the holds of other levels unplaced. */
  lemma {:induction false} OneFrame(w: World, e: Earner, p: Payload, env: Env, other: Key)
    requires HoldId(other) !in w.books.transfers && other != KeyFor(e, p)
    ensures HoldId(other) !in AccrueOne(w, e, p, env).0.books.transfers
  {
    EnsureBothFrame(w, e.agent, other);
    SagaFrame(EnsureBoth(w, e.agent), e, p, env, other);
  }

  /** The level's post moved what the payload says, to the agent it names. */
  predicate PaidAs(s: L.State, k: Key, p: Payload)
  {
    PostId(k) in s.transfers && s.transfers[PostId(k)] == HoldTransfer(p).(pending := false)
  }

  lemma {:induction false} SagaPaysDue(w: World, e: Earner, p: Payload, env: Env)
    requires Inv(w, map[]) && w.life == Forever && HoldId(KeyFor(e, p)) !in w.books.transfers && Saga(w, e, p, env).1
    ensures PaidAs(Saga(w, e, p, env).0.books, KeyFor(e, p), p)
  {
    var k := KeyFor(e, p);
    HoldAgrees(w, k, p, map[]);
    var w1 := Do(w, L.DoHold(HoldId(k), HoldTransfer(p)));
    assert Saga(w, e, p, env) == PostAndMark(w1, e, p, env);
    PostAgrees(w1, k, p, map[]);
  }

  /** A level under a new reference that answers was paid exactly what the rate says. */
  lemma {:induction false} OnePaysDue(w: World, e: Earner, p: Payload, env: Env)
    requires Inv(w, map[]) && w.life == Forever && HoldId(KeyFor(e, p)) !in w.books.transfers && AccrueOne(w, e, p, env).1
    ensures PaidAs(AccrueOne(w, e, p, env).0.books, KeyFor(e, p), p)
  {
    assert At(w, KeyFor(e, p), map[]);
    var w1 := EnsureBoth(w, e.agent);
    assert AccrueOne(w, e, p, env) == Saga(w1, e, p, env);
    EnsureBothKeeps(w, e.agent, map[]);
    EnsureBothForever(w, e.agent);
    EnsureBothFrame(w, e.agent, KeyFor(e, p));
    SagaPaysDue(w1, e, p, env);
  }

  lemma {:induction false} EnsureBothForever(w: World, agent: string)
    requires w.life == Forever
    ensures EnsureBoth(w, agent).life == Forever
  {
  }

  // ---------------------------------------------------------------- all levels

  /** No hold of the request's levels from `i` on has been placed. */
  predicate Unplaced(s: L.State, req: Request, i: nat)
  {
    forall j :: i <= j < |req.earners| ==> HoldId(KeyAt(req, j)) !in s.transfers
  }

  ghost predicate PaidAt(s: L.State, req: Request, env: Env, j: nat)
    requires j < |req.earners|
  {
    j + 1 in env.rates ==> PaidAs(s, KeyAt(req, j), PayloadAt(req, env, j))
  }

  lemma {:induction false} LevelPays(w: World, req: Request, env: Env, i: nat)
    requires Inv(w, map[]) && w.life == Forever && i < |req.earners| && LevelAt(w, req, env, i).1 && Unplaced(w.books, req, i)
    ensures PaidAt(LevelAt(w, req, env, i).0.books, req, env, i) && Unplaced(LevelAt(w, req, env, i).0.books, req, i + 1)
  {
    if i + 1 in env.rates {
      var e, p := req.earners[i], PayloadAt(req, env, i);
      assert KeyFor(e, p) == KeyAt(req, i);
      OnePaysDue(w, e, p, env);
      forall j | i + 1 <= j < |req.earners| ensures HoldId(KeyAt(req, j)) !in LevelAt(w, req, env, i).0.books.transfers {
        OneFrame(w, e, p, env, KeyAt(req, j));
      }
    }
  }

  lemma {:induction false} LevelsPay(w: World, req: Request, env: Env, i: nat)
    requires Inv(w, map[]) && w.life == Forever && i <= |req.earners| && AccrueFrom(w, req, env, i).1 && Unplaced(w.books, req, i)
    ensures forall j :: i <= j < |req.earners| ==> PaidAt(AccrueFrom(w, req, env, i).0.books, req, env, j)
    decreases |req.earners| - i
  {
    if i < |req.earners| {
      AccrueFromUnfolds(w, req, env, i);
      LevelAnswered(w, req, env, i);
      LevelPays(w, req, env, i);
      var w1 := LevelAt(w, req, env, i).0;
      LevelsPay(w1, req, env, i + 1);
      AccrueFromKeeps(w1, req, env, i + 1, map[]);
      PaidLater(w1, AccrueFrom(w, req, env, i).0, req, env, i);
    }
  }

  lemma {:induction false} PaidLater(w: World, v: World, req: Request, env: Env, i: nat)
    requires i < |req.earners| && PaidAt(w.books, req, env, i) && Extends(w.books, v.books)
    ensures PaidAt(v.books, req, env, i)
  {
    assert SettledAt(w.books, v.books, PostId(KeyAt(req, i)));
  }

  // ---------------------------------------------------------------- funding equals payments

  /** What the journal shows as paid to the first `n` earners. */
  function PaidOut(j: L.Journal, req: Request, rates: map<nat, nat>, n: nat): nat
    requires n <= |req.earners|
  {
    if n == 0 then 0
    else PaidOut(j, req, rates, n - 1) + if n in rates then AmountMoved(j, PostId(KeyAt(req, n - 1))) else 0
  }

  lemma {:induction false} TotalIsPaid(w: World, req: Request, env: Env, n: nat)
    requires Inv(w, map[]) && n <= |req.earners| && forall j :: 0 <= j < |req.earners| ==> PaidAt(w.books, req, env, j)
    ensures TotalUpTo(req, env.rates, n) == PaidOut(w.books.journal, req, env.rates, n) % UINT64
  {
    if n > 0 {
      TotalIsPaid(w, req, env, n - 1);
      if n in env.rates {
        assert PaidAt(w.books, req, env, n - 1) && At(w, KeyAt(req, n - 1), map[]);
        AddMod(PaidOut(w.books.journal, req, env.rates, n - 1), ComputeKobo(req.base, env.rates[n]));
      }
    }
  }

  lemma {:induction false} AddMod(a: nat, b: nat)
    ensures (a % UINT64 + b) % UINT64 == (a + b) % UINT64
  {
    assert a == a / UINT64 * UINT64 + a % UINT64;
    ModShift(a % UINT64 + b, a / UINT64);
  }

  lemma {:induction false} ModShift(x: nat, q: nat)
    ensures (x + q * UINT64) % UINT64 == x % UINT64
  {
    if q > 0 { ModShift(x, q - 1); }
  }

  lemma {:induction false} PreparedFrame(w: World, req: Request, total: nat, k: Key)
    requires req.earners != [] && HoldId(k) !in w.books.transfers
    ensures HoldId(k) !in Do(Prepared(w, req), L.DoDirect(FundId(req, total), FundTransfer(total))).books.transfers
  {
    DoFrame(w, L.DoCreate([L.AccountSpec(CommissionTreasury, COMMISSION_ACCOUNT)]), k);
    EnsureBothFrame(Ensure(w, CommissionTreasury), req.earners[0].agent, k);
    DoFrame(Prepared(w, req), L.DoDirect(FundId(req, total), FundTransfer(total)), k);
  }

  lemma {:induction false} AccruePays(w: World, req: Request, env: Env)
    requires Inv(w, map[]) && w.life == Forever && Accrue(w, req, env).1 && Unplaced(w.books, req, 0)
    ensures forall j :: 0 <= j < |req.earners| ==> PaidAt(Accrue(w, req, env).0.books, req, env, j)
  {
    var total := Total(req, env.rates);
    var w1 := Prepared(w, req);
    PreparedKeeps(w, req, map[]);
    PreparedReady(w, req);
    FundedThen(w1, req, total);
    var w2 := Do(w1, L.DoDirect(FundId(req, total), FundTransfer(total)));
    forall j | 0 <= j < |req.earners| ensures HoldId(KeyAt(req, j)) !in w2.books.transfers {
      PreparedFrame(w, req, total, KeyAt(req, j));
    }
    assert Accrue(w, req, env) == AccrueFrom(w2, req, env, 0);
    LevelsPay(w2, req, env, 0);
  }

  /**
   An accrual under a new reference that completes funds the pool with exactly
   what it pays out of it: each level is paid its rate's share, to its agent, and
   the funding transfer is the sum of the payments, up to wrap-around at 64 bits.
   */
  lemma {:induction false} FundingEqualsPayments(w: World, req: Request, env: Env)
    requires Inv(w, map[]) && w.life == Forever && Accrue(w, req, env).1 && Unplaced(w.books, req, 0)
    ensures var v := Accrue(w, req, env).0;
            && (forall j :: 0 <= j < |req.earners| && j + 1 in env.rates ==>
                  PaidAs(v.books, KeyAt(req, j), PayloadAt(req, env, j)))
            && Funded(v.books, req, PaidOut(v.books.journal, req, env.rates, |req.earners|) % UINT64)
  {
    CompletedLanded(w, req, env);
    AccruePays(w, req, env);
    var v := Accrue(w, req, env).0;
    TotalIsPaid(v, req, env, |req.earners|);
    forall j | 0 <= j < |req.earners| && j + 1 in env.rates
      ensures PaidAs(v.books, KeyAt(req, j), PayloadAt(req, env, j))
    {
      assert PaidAt(v.books, req, env, j);
    }
  }
}
