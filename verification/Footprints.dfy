/**
 What the operations of each service leave alone on the shared ledger: every one of
 them, cut off anywhere, is a sequence of ledger calls of its own kind.
 */
module PaymentFootprint {
  import opened Prelude
  import opened Ids
  import L = Ledger
  import opened SharedLedger
  import opened Payments
  import K = PaymentLaws
  import R = PaymentRuns

  /** Only the payment service was at work since `a`. */
  ghost predicate Mine(a: L.State, b: L.State)
  {
    Spares(PaymentSide, a, b)
  }

  lemma {:induction false} Calls(a: L.State, b: L.State, op: L.Op)
    requires Mine(a, b) && OwnOp(PaymentSide, op)
    ensures Mine(a, L.Step(b, op))
  {
    hide Spares, OwnOp, L.Step;
    StepSpares(PaymentSide, a, b, op);
  }

  lemma {:induction false} Opens(a: L.State, b: L.State, x: AccountId)
    requires Mine(a, b) && K.PsmAccount(x)
    ensures Mine(a, Opened(b, x))
  {
    hide Mine, L.CreateAccounts;
    Calls(a, b, L.DoCreate([L.AccountSpec(x, PSM_ACCOUNT)]));
  }

  lemma {:induction false} Ensures(a: L.State, w: World, x: AccountId)
    requires Mine(a, w.books) && K.PsmAccount(x)
    ensures Mine(a, EnsureAccount(w, x).books)
  {
    hide Mine, Opened;
    Opens(a, w.books, x);
  }

  lemma {:induction false} Releases(a: L.State, w: World, hold: TransferId)
    requires Mine(a, w.books) && Owner(hold) == PaymentSide
    ensures Mine(a, Release(w, hold).books)
  {
    hide Mine, L.Void;
    Calls(a, w.books, L.DoVoid(hold));
  }

  /** The ids a stored payment names are its own. */
  predicate Named(p: Payment)
  {
    p.hold == PsmIntent(p.id) && (p.status == AwaitingPost ==> p.post == PsmPost(p.id))
  }

  lemma {:induction false} RowNamed(w: World, id: PaymentId)
    requires K.Inv(w) && id in w.payments
    ensures Named(w.payments[id]) && w.payments[id].id == id
    ensures id in w.disputes ==> w.disputes[id].hold == PsmDisputeHold(id)
  {
    R.RowAgrees(w, id);
  }

  lemma {:induction false} Intent(a: L.State, w: World, req: IntentRequest, id: PaymentId, gateOpen: bool, providerKnown: bool, env: Env)
    requires Mine(a, w.books)
    ensures Mine(a, CreateIntent(w, req, id, gateOpen, providerKnown, env).books)
  {
    hide Mine, EnsureAccount, L.Hold, Release;
    var p := NewPayment(id, req, env);
    Ensures(a, w, Payer(p.tin));
    var w0 := EnsureAccount(w, Payer(p.tin));
    Ensures(a, w0, Collections);
    var w1 := EnsureAccount(w0, Collections);
    var op := L.DoHold(p.hold, HoldTransfer(p));
    Calls(a, w1.books, op);
    var w3 := Save(Book(w1, L.Step(w1.books, op)), p, env.saveFault);
    Releases(a, w3, p.hold);
  }

  lemma {:induction false} Authorises(a: L.State, w: World, id: PaymentId, env: Env)
    requires Mine(a, w.books) && (id in w.payments ==> Named(w.payments[id]))
    ensures Mine(a, Authorise(w, id, env).books)
  {
    hide Mine, Release;
    if id in w.payments { Releases(a, w, w.payments[id].hold); }
  }

  lemma {:induction false} Voids(a: L.State, w: World, id: PaymentId, env: Env)
    requires Mine(a, w.books) && (id in w.payments ==> Named(w.payments[id]))
    ensures Mine(a, Void(w, id, env).0.books)
  {
    hide Mine, L.Void;
    if id in w.payments { Calls(a, w.books, L.DoVoid(w.payments[id].hold)); }
  }

  lemma {:induction false} Compensates(a: L.State, w: World, p: Payment, env: Env)
    requires Mine(a, w.books) && Named(p)
    ensures Mine(a, Compensate(w, p, env).books)
  {
    hide Mine, L.Direct, L.Void, Opened;
    var b0 := Opened(w.books, Payer(p.tin));
    Opens(a, w.books, Payer(p.tin));
    Opens(a, b0, Collections);
    var b1 := Opened(b0, Collections);
    Calls(a, b1, L.DoDirect(PsmCompensation(p.id), ReversalTransfer(p)));
    Calls(a, L.Direct(b1, PsmCompensation(p.id), ReversalTransfer(p)).0, L.DoVoid(p.hold));
    Calls(a, w.books, L.DoVoid(p.hold));
  }

  lemma {:induction false} PostsFee(a: L.State, w: World, p: Payment)
    requires Mine(a, w.books)
    ensures Mine(a, PostFeeLeg(w, p).0.books)
  {
    hide Mine, EnsureAccount, L.Direct;
    Ensures(a, w, Collections);
    var w0 := EnsureAccount(w, Collections);
    Ensures(a, w0, FeeIncome);
    Calls(a, EnsureAccount(w0, FeeIncome).books, L.DoDirect(PsmFee(p.id), FeeTransfer(p)));
  }

  lemma {:induction false} Finishes(a: L.State, w: World, p: Payment, env: Env)
    requires Mine(a, w.books) && Named(p) && p.post == PsmPost(p.id)
    ensures Mine(a, Finish(w, p, env).books)
  {
    hide Mine, L.Post, Compensate, PostFeeLeg;
    Calls(a, w.books, L.DoPost(p.hold, p.post, p.amount));
    var w1 := Book(w, L.Post(w.books, p.hold, p.post, p.amount).0);
    Compensates(a, w1, p, env);
    PostsFee(a, w1, p);
    var w2 := PostFeeLeg(w1, p).0;
    Compensates(a, w2, p, env);
    Compensates(a, Issue(w2, p, env), p, env);
  }

  lemma {:induction false} Captures(a: L.State, w: World, id: PaymentId, env: Env)
    requires Mine(a, w.books) && (id in w.payments ==> Named(w.payments[id]))
    ensures Mine(a, Capture(w, id, env).books)
  {
    hide Mine, Release, Finish, Compensate;
    if id in w.payments {
      var p := w.payments[id];
      Releases(a, w, p.hold);
      if ChargeSeen(env).Charged? {
        var q := AwaitingPostOf(p, ChargeSeen(env).settled, env.now);
        Compensates(a, Save(w, q, env.saveFault), q, env);
        Finishes(a, Save(w, q, env.saveFault), q, env);
      }
    }
  }

  lemma {:induction false} OpensDispute(a: L.State, w: World, id: PaymentId, env: Env)
    requires Mine(a, w.books)
    ensures Mine(a, OpenDispute(w, id, env).0.books)
  {
    hide Mine, EnsureAccount, L.Hold;
    Ensures(a, w, Collections);
    var w0 := EnsureAccount(w, Collections);
    Ensures(a, w0, DisputeHold);
    if id in w.payments {
      Calls(a, EnsureAccount(w0, DisputeHold).books, L.DoHold(PsmDisputeHold(id), DisputeTransfer(w.payments[id])));
    }
  }

  lemma {:induction false} ResolvesDispute(a: L.State, w: World, id: PaymentId, outcome: Option<Outcome>, env: Env)
    requires Mine(a, w.books) && (id in w.payments && id in w.disputes ==> w.disputes[id].hold == PsmDisputeHold(id))
    ensures Mine(a, ResolveDispute(w, id, outcome, env).0.books)
  {
    hide Mine, L.Post, L.Void;
    if id in w.payments && id in w.disputes {
      Calls(a, w.books, L.DoVoid(w.disputes[id].hold));
      Calls(a, w.books, L.DoPost(w.disputes[id].hold, PsmDisputeDebit(id), w.disputes[id].amount));
    }
  }

  lemma {:induction false} Hooks(a: L.State, w: World, hook: Webhook, id: PaymentId, env: Env)
    requires K.Inv(w) && Mine(a, w.books)
    ensures Mine(a, HandleWebhook(w, hook, id, env).books)
  {
    hide K.Inv, Mine, Capture, Void, OpenDispute, ResolveDispute, ValueVerified;
    if id in w.payments { RowNamed(w, id); }
    Captures(a, w, id, env);
    Voids(a, w, id, env);
    OpensDispute(a, w, id, env);
    ResolvesDispute(a, w, id, hook.outcome, env);
  }

  lemma {:induction false} SweepsOne(a: L.State, w: World, p: Payment, env: Env)
    requires Mine(a, w.books) && Named(p)
    ensures Mine(a, SweepOne(w, p, env).books)
  {
    hide Mine, Release, Finish, Compensate, RetryRefunds;
    Releases(a, w, p.hold);
    if p.status == AwaitingPost { Finishes(a, w, p, env); }
    if p.status == CaptureInFlight && env.verify.Says? {
      var q := AwaitingPostOf(p, env.verify.settled, env.now);
      Finishes(a, Save(w, q, env.saveFault), q, env);
    }
  }

  lemma {:induction false} Sweeps(a: L.State, w: World, listed: seq<Payment>, envs: PaymentId -> Env)
    requires Mine(a, w.books) && forall i :: 0 <= i < |listed| ==> Named(listed[i])
    ensures Mine(a, Sweep(w, listed, envs).books)
  {
    hide Mine, SweepOne, Named;
    if listed != [] {
      var n := |listed| - 1;
      Sweeps(a, w, listed[..n], envs);
      SweepsOne(a, Sweep(w, listed[..n], envs), listed[n], envs(listed[n].id));
    }
  }
}

module FloatFootprint {
  import opened Ids
  import L = Ledger
  import opened SharedLedger
  import opened Floats

  /** Only the float service was at work since `a`. */
  ghost predicate Mine(a: L.State, b: L.State)
  {
    Spares(FloatSide, a, b)
  }

  lemma {:induction false} Calls(a: L.State, w: World, op: L.Op)
    requires Mine(a, w.books) && OwnOp(FloatSide, op)
    ensures Mine(a, Do(w, op).books)
  {
    hide Spares, OwnOp, L.Step;
    StepSpares(FloatSide, a, w.books, op);
  }

  lemma {:induction false} Settles(a: L.State, w: World, m: Movement, f: Faults)
    requires Mine(a, w.books)
    ensures Mine(a, Settle(w, m, f).0.books)
  {
    hide Mine, Do, L.Post;
    Calls(a, w, L.DoPost(HoldId(m), PostId(m), m.amount));
    Calls(a, w, L.DoVoid(HoldId(m)));
  }

  lemma {:induction false} Places(a: L.State, w: World, m: Movement, f: Faults)
    requires Mine(a, w.books)
    ensures Mine(a, Place(w, m, f).0.books)
  {
    hide Mine, Do, L.Hold, Settle;
    Calls(a, w, L.DoHold(HoldId(m), HoldTransfer(m)));
    var w1 := Save(Do(w, L.DoHold(HoldId(m), HoldTransfer(m))), m, f.record);
    Calls(a, w1, L.DoVoid(HoldId(m)));
    Settles(a, w1, m, f);
  }

  lemma {:induction false} Moves(a: L.State, w: World, kind: MovementKind, agent: string, amount: nat, reference: string, f: Faults)
    requires Mine(a, w.books)
    ensures Mine(a, Move(w, kind, agent, amount, reference, f).0.books)
  {
    hide Mine, Do, Place;
    Calls(a, w, OpenAccount(AgentFloat(agent)));
    var w1 := Open(w, agent, f.account);
    Calls(a, w1, OpenAccount(FloatTreasury));
    Places(a, EnsureTreasury(w1), Movement(kind, reference, agent, amount, Pending), f);
  }

  lemma {:induction false} SweepsOne(a: L.State, w: World, m: Movement, f: Faults)
    requires Mine(a, w.books)
    ensures Mine(a, SweepOne(w, m, f).books)
  {
    hide Mine, Do, L.Post, L.Void;
    Calls(a, w, L.DoPost(HoldId(m), PostId(m), m.amount));
    Calls(a, w, L.DoVoid(HoldId(m)));
  }

  lemma {:induction false} Sweeps(a: L.State, w: World, listed: seq<Movement>, f: Key -> Faults)
    requires Mine(a, w.books)
    ensures Mine(a, Sweep(w, listed, f).books)
  {
    hide Mine, SweepOne;
    if listed != [] {
      var n := |listed| - 1;
      Sweeps(a, w, listed[..n], f);
      SweepsOne(a, Sweep(w, listed[..n], f), listed[n], f(KeyOf(listed[n])));
    }
  }
}

module CommissionFootprint {
  import opened Prelude
  import opened Ids
  import L = Ledger
  import opened SharedLedger
  import opened Commissions

  /** Only the commission engine was at work since `a`. */
  ghost predicate Mine(a: L.State, b: L.State)
  {
    Spares(CommissionSide, a, b)
  }

  lemma {:induction false} Calls(a: L.State, w: World, op: L.Op)
    requires Mine(a, w.books) && OwnOp(CommissionSide, op)
    ensures Mine(a, Do(w, op).books)
  {
    hide Spares, OwnOp, L.Step;
    StepSpares(CommissionSide, a, w.books, op);
  }

  lemma {:induction false} Ensures(a: L.State, w: World, x: AccountId)
    requires Mine(a, w.books) && Flavour(x) == Some(COMMISSION_ACCOUNT) && !FloatAccount(x)
    ensures Mine(a, Ensure(w, x).books)
  {
    hide Mine, Do;
    Calls(a, w, L.DoCreate([L.AccountSpec(x, COMMISSION_ACCOUNT)]));
  }

  lemma {:induction false} EnsuresBoth(a: L.State, w: World, agent: string)
    requires Mine(a, w.books)
    ensures Mine(a, EnsureBoth(w, agent).books)
  {
    hide Mine, Ensure;
    Ensures(a, w, CommissionPool);
    Ensures(a, Ensure(w, CommissionPool), AgentCommission(agent));
  }

  lemma {:induction false} Posts(a: L.State, w: World, e: Earner, p: Payload, env: Env)
    requires Mine(a, w.books)
    ensures Mine(a, PostAndMark(w, e, p, env).0.books)
  {
    hide Mine, Do, L.Post;
    var k := KeyFor(e, p);
    Calls(a, w, L.DoPost(HoldId(k), PostId(k), p.amount));
    Calls(a, w, L.DoVoid(HoldId(k)));
  }

  lemma {:induction false} Sagas(a: L.State, w: World, e: Earner, p: Payload, env: Env)
    requires Mine(a, w.books)
    ensures Mine(a, Saga(w, e, p, env).0.books)
  {
    hide Mine, Do, L.Hold, PostAndMark;
    var op := L.DoHold(HoldId(KeyFor(e, p)), HoldTransfer(p));
    Calls(a, w, op);
    Posts(a, Do(w, op), e, p, env);
  }

  lemma {:induction false} AccruesOne(a: L.State, w: World, e: Earner, p: Payload, env: Env)
    requires Mine(a, w.books)
    ensures Mine(a, AccrueOne(w, e, p, env).0.books)
  {
    hide Mine, EnsureBoth, Saga;
    EnsuresBoth(a, w, e.agent);
    Sagas(a, EnsureBoth(w, e.agent), e, p, env);
  }

  lemma {:induction false} AccruesFrom(a: L.State, w: World, req: Request, env: Env, i: nat)
    requires Mine(a, w.books) && i <= |req.earners|
    ensures Mine(a, AccrueFrom(w, req, env, i).0.books)
    decreases |req.earners| - i
  {
    hide Mine, AccrueOne;
    if i < |req.earners| {
      if i + 1 in env.rates {
        AccruesOne(a, w, req.earners[i], PayloadAt(req, env, i), env);
        AccruesFrom(a, AccrueOne(w, req.earners[i], PayloadAt(req, env, i), env).0, req, env, i + 1);
      } else {
        AccruesFrom(a, w, req, env, i + 1);
      }
    }
  }

  lemma {:induction false} Accrues(a: L.State, w: World, req: Request, env: Env)
    requires Mine(a, w.books)
    ensures Mine(a, Accrue(w, req, env).0.books)
  {
    hide Mine, Do, L.Direct, Ensure, EnsureBoth, AccrueFrom, Total;
    if !Refused(req, env.rates) {
      Ensures(a, w, CommissionTreasury);
      var w0 := Ensure(w, CommissionTreasury);
      EnsuresBoth(a, w0, req.earners[0].agent);
      var w1 := EnsureBoth(w0, req.earners[0].agent);
      var op := L.DoDirect(FundId(req, Total(req, env.rates)), FundTransfer(Total(req, env.rates)));
      Calls(a, w1, op);
      AccruesFrom(a, Do(w1, op), req, env, 0);
    }
  }

  lemma {:induction false} ClawsOne(a: L.State, w: World, r: Record, fault: bool)
    requires Mine(a, w.books)
    ensures Mine(a, ClawOne(w, r, fault).0.books)
  {
    hide Mine, Do, L.Direct, EnsureBoth;
    EnsuresBoth(a, w, r.payload.agent);
    Calls(a, EnsureBoth(w, r.payload.agent), L.DoDirect(ClawbackId(KeyOf(r)), ReversalTransfer(r.payload)));
  }

  lemma {:induction false} ClawsFrom(a: L.State, w: World, tenant: string, reference: string, listed: seq<Record>,
                                     fault: Key -> bool, i: nat)
    requires Mine(a, w.books) && i <= |listed|
    ensures Mine(a, ClawFrom(w, tenant, reference, listed, fault, i).0.books)
    decreases |listed| - i
  {
    hide Mine, ClawOne;
    if i < |listed| {
      if Targeted(listed[i], tenant, reference) {
        ClawsOne(a, w, listed[i], fault(KeyOf(listed[i])));
        ClawsFrom(a, ClawOne(w, listed[i], fault(KeyOf(listed[i]))).0, tenant, reference, listed, fault, i + 1);
      } else {
        ClawsFrom(a, w, tenant, reference, listed, fault, i + 1);
      }
    }
  }
}

module NipFootprint {
  import opened Ids
  import L = Ledger
  import opened SharedLedger
  import opened Nip

  /** Only the NIP service was at work since `a`. */
  ghost predicate Mine(a: L.State, b: L.State)
  {
    Spares(NipSide, a, b)
  }

  lemma {:induction false} Calls(a: L.State, w: World, op: L.Op)
    requires Mine(a, w.books) && OwnOp(NipSide, op)
    ensures Mine(a, Do(w, op).books)
  {
    hide Spares, OwnOp, L.Step;
    StepSpares(NipSide, a, w.books, op);
  }

  /** Settling the leg, by post or by release. */
  lemma {:induction false} Settles(a: L.State, w: World, t: Transfer)
    requires Mine(a, w.books)
    ensures Mine(a, PostLeg(w, t).books) && Mine(a, VoidLeg(w, t).books)
  {
    hide Mine, Do;
    Calls(a, w, L.DoPost(NipLeg(t.session), NipPost(t.session), t.req.amount));
    Calls(a, w, L.DoVoid(NipLeg(t.session)));
  }

  lemma {:induction false} Fires(a: L.State, w: World, t: Transfer, env: Env)
    requires Mine(a, w.books)
    ensures Mine(a, Fire(w, t, env).books)
  {
    hide Mine, PostLeg, VoidLeg, L.Post;
    Settles(a, Send(w, t, env.now, env.dispatch), t.(status := SendAnswer(w, t, env.dispatch)));
  }

  lemma {:induction false} Pays(a: L.State, w: World, req: Request, env: Env)
    requires Mine(a, w.books)
    ensures Mine(a, PayoutLocked(w, req, env).books)
  {
    hide Mine, PlaceLeg;
    var t := NewTransfer(req, env);
    Legs(a, Put(Put(w, Idem(t.req.key), t, env.idemFault), Sess(t.session), t, env.sessFault), t, env);
  }

  lemma {:induction false} Legs(a: L.State, w: World, t: Transfer, env: Env)
    requires Mine(a, w.books)
    ensures Mine(a, PlaceLeg(w, t, env).books)
  {
    hide Mine, Do, Fire, L.Hold;
    Calls(a, w, OpenAccount(Collections));
    var w0 := Do(w, OpenAccount(Collections));
    Calls(a, w0, OpenAccount(NipClearing));
    var w1 := Do(w0, OpenAccount(NipClearing));
    Calls(a, w1, L.DoHold(NipLeg(t.session), LegTransfer(t)));
    var w2 := Do(w1, L.DoHold(NipLeg(t.session), LegTransfer(t)));
    Fires(a, PutBoth(w2, t.(legged := true), env.markLost), t.(legged := true), env);
  }

  lemma {:induction false} Resolves(a: L.State, w: World, t: Transfer, env: Env)
    requires Mine(a, w.books)
    ensures Mine(a, Resolve(w, t, env).books)
  {
    hide Mine, PostLeg, VoidLeg, L.Post;
    Settles(a, Ask(w, t.session, env.tsq(t.session)), t);
  }

  lemma {:induction false} Sweeps(a: L.State, w: World, listed: seq<Transfer>, env: Env, seen: set<SessionId>)
    requires Mine(a, w.books)
    ensures Mine(a, Sweep(w, listed, env, seen).books)
    decreases |listed|
  {
    hide Mine, Resolve;
    if listed != [] {
      if listed[0].status != InFlight || listed[0].session in seen {
        Sweeps(a, w, listed[1..], env, seen);
      } else {
        Resolves(a, w, listed[0], env);
        Sweeps(a, Resolve(w, listed[0], env), listed[1..], env, seen + {listed[0].session});
      }
    }
  }

  lemma {:induction false} Purges(w: World, listed: seq<Transfer>, now: int)
    ensures Purge(w, listed, now).books == w.books
    decreases |listed|
  {
    if listed != [] {
      Purges(if Purged(listed[0], now) then Delete(w, Idem(listed[0].req.key)) else w, listed[1..], now);
    }
  }
}
