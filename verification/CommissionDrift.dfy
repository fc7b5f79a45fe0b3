/**
 When a commission record describes the money that moved, and when it does not:
 a level that was paid keeps its post for ever, but its record can be rewritten by
 a later accrual with another payload, and a clawback reverses what the record says.
 */
module CommissionDrift {
  import opened Prelude
  import opened Ids
  import L = Ledger
  import opened LedgerLaws
  import opened Commissions
  import opened CommissionLaws
  import opened CommissionFunding

  /**
   A saga that answers writes a record that describes the post exactly when the
   level had no post yet or its post has the same agent and amount.
   */
  lemma {:induction false} RecordMatchesIff(w: World, e: Earner, p: Payload, env: Env)
    requires Inv(w, map[]) && w.life == Forever && Saga(w, e, p, env).1
    ensures var k := KeyFor(e, p);
            var v := Saga(w, e, p, env).0;
            && k in v.records && v.records[k].payload == p && v.records[k].status == Posted
            && (PaidAs(v.books, k, p) <==> PostId(k) !in w.books.transfers || PaidAs(w.books, k, p))
  {
    var k := KeyFor(e, p);
    assert At(w, k, map[]);
    if L.Hold(w.books, HoldId(k), HoldTransfer(p)).1.Ok? {
      HoldAgrees(w, k, p, map[]);
      PostAgrees(Do(w, L.DoHold(HoldId(k), HoldTransfer(p))), k, p, map[]);
    }
  }

  /** If the account is open it has the engine's own flags. */
  predicate PlainAt(s: L.State, a: AccountId)
  {
    a in s.accounts ==> s.accounts[a] == COMMISSION_ACCOUNT
  }

  predicate CommissionSide(a: AccountId)
  {
    a == CommissionPool || a == CommissionTreasury || a.AgentCommission?
  }

  /** Every commission account that is open has the engine's own flags; accounts of other services may have any. */
  ghost predicate Plain(s: L.State)
  {
    forall a :: CommissionSide(a) ==> PlainAt(s, a)
  }

  lemma {:induction false} EnsurePlain(w: World, a: AccountId)
    requires Inv(w, map[]) && w.life == Forever && Plain(w.books) && CommissionSide(a)
    ensures var v := Ensure(w, a);
            && Inv(v, map[]) && v.life == Forever && Plain(v.books) && a in v.books.accounts
            && (forall b :: b in w.books.accounts ==> b in v.books.accounts)
            && v.books.transfers == w.books.transfers && v.records == w.records
  {
    EnsureKeeps(w, a, map[]);
    if a !in w.books.accounts { OpenSingle(w.books, a, COMMISSION_ACCOUNT); }
    forall b | CommissionSide(b) ensures PlainAt(Ensure(w, a).books, b) { assert PlainAt(w.books, b); }
  }

  lemma {:induction false} PreparedPlain(w: World, req: Request)
    requires Inv(w, map[]) && w.life == Forever && Plain(w.books) && req.earners != []
    ensures var v := Prepared(w, req);
            && Inv(v, map[]) && v.life == Forever && Plain(v.books)
            && CommissionTreasury in v.books.accounts && Ready(v.books, req.earners[0].agent)
            && v.books.transfers == w.books.transfers && v.records == w.records
  {
    EnsurePlain(w, CommissionTreasury);
    var w1 := Ensure(w, CommissionTreasury);
    EnsurePlain(w1, CommissionPool);
    EnsurePlain(Ensure(w1, CommissionPool), AgentCommission(req.earners[0].agent));
  }

  /** On plain accounts the funding transfer is accepted. */
  lemma {:induction false} FundPlain(w: World, req: Request, total: nat)
    requires Inv(w, map[]) && w.life == Forever && Plain(w.books) && req.earners != [] && total > 0
    requires CommissionTreasury in w.books.accounts && CommissionPool in w.books.accounts
    requires FundId(req, total) !in w.books.transfers
    ensures var op := L.DoDirect(FundId(req, total), FundTransfer(total));
            var v := Do(w, op);
            && L.Direct(w.books, FundId(req, total), FundTransfer(total)).1.Ok?
            && Inv(v, map[]) && v.life == Forever && v.books.accounts == w.books.accounts
            && v.books.transfers == w.books.transfers[FundId(req, total) := FundTransfer(total)] && v.records == w.records
            && Moves(v.books.journal, FundId(req, total)) == 1
  {
    assert PlainAt(w.books, CommissionTreasury) && PlainAt(w.books, CommissionPool);
    AsideKeeps(w, L.DoDirect(FundId(req, total), FundTransfer(total)), map[]);
    NothingMoved(w.books, FundId(req, total));
    hide Inv;
    FundAccepted(w.books, req, total);
  }

  /** Between plain accounts a transfer under a new id is accepted. */
  lemma {:induction false} FundAccepted(s: L.State, req: Request, total: nat)
    requires CommissionTreasury in s.accounts && CommissionPool in s.accounts && total > 0 && req.earners != []
    requires PlainAt(s, CommissionTreasury) && PlainAt(s, CommissionPool) && FundId(req, total) !in s.transfers
    ensures var (t, r) := L.Direct(s, FundId(req, total), FundTransfer(total));
            && r.Ok? && t.accounts == s.accounts && t.transfers == s.transfers[FundId(req, total) := FundTransfer(total)]
            && Moves(t.journal, FundId(req, total)) == Moves(s.journal, FundId(req, total)) + 1
  {
  }

  /** On plain accounts a standing hold is posted and marked. */
  lemma {:induction false} HeldPays(w: World, e: Earner, p: Payload, env: Env)
    requires Inv(w, map[]) && w.life == Forever && Plain(w.books) && p.amount > 0 && !env.markFault(p.level)
    requires HoldId(KeyFor(e, p)) in w.books.transfers && w.books.transfers[HoldId(KeyFor(e, p))] == HoldTransfer(p)
    requires PostId(KeyFor(e, p)) !in w.books.transfers
    ensures var (v, ok) := PostAndMark(w, e, p, env);
            && ok && v.books.accounts == w.books.accounts && PaidAs(v.books, KeyFor(e, p), p)
            && v.life == Forever && v.records == w.records[KeyFor(e, p) := RecordFor(e, p, env)]
            && forall id :: id in v.books.transfers && !id.CommHold? && !id.CommPost? ==> id in w.books.transfers
  {
    hide L.Post, At, Landed, Extends;
    var k := KeyFor(e, p);
    assert ClosedAt(w.books, HoldId(k));
    assert PlainAt(w.books, CommissionPool) && PlainAt(w.books, AgentCommission(p.agent));
    PostAccepted(w.books, k, p);
    PostAgrees(w, k, p, map[]);
  }

  /** Between plain accounts a pending hold is accepted for posting. */
  lemma {:induction false} PostAccepted(s: L.State, k: Key, p: Payload)
    requires CommissionPool in s.accounts && AgentCommission(p.agent) in s.accounts
    requires PlainAt(s, CommissionPool) && PlainAt(s, AgentCommission(p.agent))
    requires HoldId(k) in s.transfers && s.transfers[HoldId(k)] == HoldTransfer(p)
    ensures var (t, r) := L.Post(s, HoldId(k), PostId(k), p.amount);
            && r.Ok? && t.accounts == s.accounts
            && forall id :: id in t.transfers && !id.CommHold? && !id.CommPost? ==> id in s.transfers
  {
  }

  lemma {:induction false} HoldAccepted(s: L.State, k: Key, p: Payload)
    requires CommissionPool in s.accounts && AgentCommission(p.agent) in s.accounts && p.amount > 0
    requires PlainAt(s, CommissionPool) && PlainAt(s, AgentCommission(p.agent)) && HoldId(k) !in s.transfers
    ensures var (t, r) := L.Hold(s, HoldId(k), HoldTransfer(p));
            && r.Ok? && t.accounts == s.accounts && t.transfers == s.transfers[HoldId(k) := HoldTransfer(p)]
  {
  }

  /** On plain accounts a new level is paid in full. */
  lemma {:induction false} SagaPays(w: World, e: Earner, p: Payload, env: Env)
    requires Inv(w, map[]) && w.life == Forever && Plain(w.books) && Ready(w.books, e.agent) && p.agent == e.agent
    requires HoldId(KeyFor(e, p)) !in w.books.transfers && p.amount > 0 && !env.markFault(p.level)
    ensures var (v, ok) := Saga(w, e, p, env);
            && ok && v.books.accounts == w.books.accounts && PaidAs(v.books, KeyFor(e, p), p)
            && v.life == Forever && v.records == w.records[KeyFor(e, p) := RecordFor(e, p, env)]
            && forall id :: id in v.books.transfers && !id.CommHold? && !id.CommPost? ==> id in w.books.transfers
  {
    assert PlainAt(w.books, CommissionPool) && PlainAt(w.books, AgentCommission(p.agent));
    HoldAccepted(w.books, KeyFor(e, p), p);
    HoldAgrees(w, KeyFor(e, p), p, map[]);
    hide Inv, L.Hold, PostAndMark;
    HeldPays(Do(w, L.DoHold(HoldId(KeyFor(e, p)), HoldTransfer(p))), e, p, env);
  }

  /** A level already paid, whose record is gone or expired, is marked with whatever the new payload says. */
  lemma {:induction false} SagaRewrites(w: World, e: Earner, p: Payload, env: Env)
    requires Inv(w, map[]) && w.life == Forever && Plain(w.books) && Ready(w.books, e.agent) && p.agent == e.agent
    requires PostId(KeyFor(e, p)) in w.books.transfers && p.amount > 0 && !env.markFault(p.level)
    ensures var (v, ok) := Saga(w, e, p, env);
            ok && v.books == w.books && v.life == Forever && v.records == w.records[KeyFor(e, p) := RecordFor(e, p, env)]
  {
    assert At(w, KeyFor(e, p), map[]);
    assert PlainAt(w.books, CommissionPool) && PlainAt(w.books, AgentCommission(p.agent));
    hide Inv;
  }

  /** The reversal of a level is the inverse of its post: the same amount, between the same accounts, the other way, once each. */
  ghost predicate Returned(s: L.State, k: Key)
  {
    && PostId(k) in s.transfers && ClawbackId(k) in s.transfers
    && var post := s.transfers[PostId(k)];
       && MovedOnce(s.journal, PostId(k), post.debit, post.credit, post.amount)
       && MovedOnce(s.journal, ClawbackId(k), post.credit, post.debit, post.amount)
       && s.transfers[ClawbackId(k)].amount == post.amount
       && s.transfers[ClawbackId(k)].debit == post.credit && s.transfers[ClawbackId(k)].credit == post.debit
  }

  lemma {:induction false} PostSettled(w: World, k: Key)
    requires Inv(w, map[]) && PostId(k) in w.books.transfers
    ensures !w.books.transfers[PostId(k)].pending
  {
    assert At(w, k, map[]);
  }

  /** A clawback of a record not yet reversed takes the record's amount from the record's agent, whatever the post paid. */
  lemma {:induction false} ClawbackTakesRecord(w: World, r: Record)
    requires Inv(w, map[]) && w.life == Forever
    requires PlainAt(w.books, CommissionPool) && PlainAt(w.books, AgentCommission(r.payload.agent))
    requires KeyOf(r) in w.records && w.records[KeyOf(r)] == r && ClawbackId(KeyOf(r)) !in w.books.transfers
    ensures var (v, ok) := ClawOne(w, r, false);
            && ok && Follows(w, v, map[]) && v.records == w.records[KeyOf(r) := r.(status := ClawedBack)]
            && ClawbackId(KeyOf(r)) in v.books.transfers && v.books.transfers[ClawbackId(KeyOf(r))] == ReversalTransfer(r.payload)
            && PostId(KeyOf(r)) in w.books.transfers && !w.books.transfers[PostId(KeyOf(r))].pending
  {
    hide Landed, Reversed, WellKept, L.Direct, Extends;
    var op := L.DoDirect(ClawbackId(KeyOf(r)), ReversalTransfer(r.payload));
    assert At(w, KeyOf(r), map[]);
    PostSettled(w, KeyOf(r));
    ClawOneKeeps(w, r, false, map[]);
    assert EnsureBoth(w, r.payload.agent) == w;
    ReversalAccepted(w.books, r);
  }

  lemma {:induction false} ReversalAccepted(s: L.State, r: Record)
    requires CommissionPool in s.accounts && AgentCommission(r.payload.agent) in s.accounts && r.payload.amount > 0
    requires PlainAt(s, CommissionPool) && PlainAt(s, AgentCommission(r.payload.agent)) && ClawbackId(KeyOf(r)) !in s.transfers
    ensures var (t, d) := L.Direct(s, ClawbackId(KeyOf(r)), ReversalTransfer(r.payload));
            d.Ok? && t.transfers == s.transfers[ClawbackId(KeyOf(r)) := ReversalTransfer(r.payload)]
  {
  }

  /** Both the post and the reversal moved what their records say, once. */
  lemma {:induction false} BothMoved(w: World, k: Key)
    requires Inv(w, map[]) && PostId(k) in w.books.transfers && ClawbackId(k) in w.books.transfers
    ensures var post, back := w.books.transfers[PostId(k)], w.books.transfers[ClawbackId(k)];
            && MovedOnce(w.books.journal, PostId(k), post.debit, post.credit, post.amount)
            && MovedOnce(w.books.journal, ClawbackId(k), back.debit, back.credit, back.amount)
            && post.debit == CommissionPool && back.credit == CommissionPool
  {
    assert At(w, k, map[]);
    MovedAsRecorded(w.books, PostId(k));
    MovedAsRecorded(w.books, ClawbackId(k));
  }

  /**
   The exact condition for a clawback to return what was paid: for a stored record
   with no reversal yet, the reversal is the inverse of the post if and only if the
   post credited the record's agent with the record's amount.
   */
  lemma {:induction false} ClawbackReturnsIff(w: World, r: Record)
    requires Inv(w, map[]) && w.life == Forever
    requires PlainAt(w.books, CommissionPool) && PlainAt(w.books, AgentCommission(r.payload.agent))
    requires KeyOf(r) in w.records && w.records[KeyOf(r)] == r && ClawbackId(KeyOf(r)) !in w.books.transfers
    ensures PostId(KeyOf(r)) in w.books.transfers
    ensures Returned(ClawOne(w, r, false).0.books, KeyOf(r))
       <==> (var post := w.books.transfers[PostId(KeyOf(r))];
             post.credit == AgentCommission(r.payload.agent) && post.amount == r.payload.amount)
  {
    var v, k := ClawOne(w, r, false).0, KeyOf(r);
    ClawbackTakesRecord(w, r);
    assert SettledAt(w.books, v.books, PostId(k));
    BothMoved(v, k);
  }

  /** What a clawback returned stays returned, and what it did not stays so: no later run changes it. */
  lemma {:induction false} ReturnedForGood(w: World, later: seq<Call>, k: Key)
    requires Inv(w, map[]) && ClawbackId(k) in w.books.transfers && AdmissibleRun(w, later, map[])
    ensures Returned(Run(w, later).books, k) <==> Returned(w.books, k)
  {
    RunFollows(w, later, map[]);
    var v := Run(w, later);
    assert At(w, k, map[]);
    assert SettledAt(w.books, v.books, PostId(k)) && SettledAt(w.books, v.books, ClawbackId(k));
    BothMoved(w, k);
    BothMoved(v, k);
  }

  // ---------------------------------------------------------------- an example

  const AGENT := Earner("a", "t")
  const LEVEL_ONE := Key("t", "r", 1)
  const FIRST := Request([AGENT], "r", 10000)
  const SECOND := Request([AGENT], "r", 20000)
  const TABLE: map<nat, nat> := map[1 := 100]

  function Clock(now: int): Env { Env(now, "v1", TABLE, _ => false) }

  function Owing(base: nat, amount: nat): Payload { Payload("a", "r", 1, 100, base, amount, "v1") }

  lemma {:induction false} Amounts(now: int)
    ensures Total(FIRST, TABLE) == 100 && PayloadAt(FIRST, Clock(now), 0) == Owing(10000, 100)
    ensures Total(SECOND, TABLE) == 200 && PayloadAt(SECOND, Clock(now), 0) == Owing(20000, 200)
  {
    assert TotalUpTo(FIRST, TABLE, 0) == 0 && TotalUpTo(SECOND, TABLE, 0) == 0;
    assert TotalUpTo(FIRST, TABLE, 1) == 100 && TotalUpTo(SECOND, TABLE, 1) == 200;
  }

  /** A request with one earner, on plain accounts, comes down to its one level. */
  lemma {:induction false} OneLevel(w: World, req: Request, env: Env, total: nat, p: Payload)
    requires Inv(w, map[]) && w.life == Forever && Plain(w.books)
    requires |req.earners| == 1 && 1 in env.rates && !Refused(req, env.rates)
    requires total == Total(req, env.rates) && p == PayloadAt(req, env, 0) && FundId(req, total) !in w.books.transfers
    ensures var v := Do(Prepared(w, req), L.DoDirect(FundId(req, total), FundTransfer(total)));
            && (!Live(w, KeyFor(req.earners[0], p), env.now) ==> Accrue(w, req, env) == Saga(v, req.earners[0], p, env))
            && EnsureBoth(v, req.earners[0].agent) == v
            && Inv(v, map[]) && v.life == Forever && Plain(v.books) && Ready(v.books, req.earners[0].agent)
            && v.books.transfers == w.books.transfers[FundId(req, total) := FundTransfer(total)] && v.records == w.records
            && Moves(v.books.journal, FundId(req, total)) == 1
  {
    PreparedPlain(w, req);
    var w1 := Prepared(w, req);
    FundPlain(w1, req, total);
    var v := Do(w1, L.DoDirect(FundId(req, total), FundTransfer(total)));
    AccrueFromUnfolds(v, req, env, 0);
    assert AccrueFrom(LevelAt(v, req, env, 0).0, req, env, 1) == (LevelAt(v, req, env, 0).0, true);
  }

  /** Plain accounts, and nothing yet under the ids the example uses. */
  ghost predicate Untouched(w: World)
  {
    && Plain(w.books) && LEVEL_ONE !in w.records
    && HoldId(LEVEL_ONE) !in w.books.transfers && ClawbackId(LEVEL_ONE) !in w.books.transfers
    && FundId(FIRST, 100) !in w.books.transfers && FundId(SECOND, 200) !in w.books.transfers
  }

  /** The first accrual pays one hundred. */
  lemma {:induction false} FirstPays(w: World)
    requires Inv(w, map[]) && w.life == Forever && Untouched(w)
    ensures var v := Accrue(w, FIRST, Clock(0)).0;
            && Inv(v, map[]) && v.life == Forever && Plain(v.books)
            && PaidAs(v.books, LEVEL_ONE, Owing(10000, 100))
            && FundId(SECOND, 200) !in v.books.transfers && ClawbackId(LEVEL_ONE) !in v.books.transfers
            && LEVEL_ONE in v.records && v.records[LEVEL_ONE] == RecordFor(AGENT, Owing(10000, 100), Clock(0))
            && Ready(v.books, "a") && CommissionTreasury in v.books.accounts && Moves(v.books.journal, FundId(FIRST, 100)) == 1
            && FundId(FIRST, 100) in v.books.transfers && v.books.transfers[FundId(FIRST, 100)] == FundTransfer(100)
  {
    hide Inv, Saga, Accrue, Plain, PaidAs;
    Amounts(0);
    AccrueKeeps(w, FIRST, Clock(0), map[]);
    OneLevel(w, FIRST, Clock(0), 100, Owing(10000, 100));
    PreparedPlain(w, FIRST);
    var v := Do(Prepared(w, FIRST), L.DoDirect(FundId(FIRST, 100), FundTransfer(100)));
    assert v.books.accounts == Prepared(w, FIRST).books.accounts by { FundSameAccounts(Prepared(w, FIRST)); }
    hide Prepared, Do;
    SagaPays(v, AGENT, Owing(10000, 100), Clock(0));
    SagaSame(v, AGENT, Owing(10000, 100), Clock(0), FundId(FIRST, 100));
    PlainStays(v.books, Saga(v, AGENT, Owing(10000, 100), Clock(0)).0.books);
  }

  lemma {:induction false} FundSameAccounts(w: World)
    ensures Do(w, L.DoDirect(FundId(FIRST, 100), FundTransfer(100))).books.accounts == w.books.accounts
  {
    hide L.Pair, L.CheckBoth;
  }

  lemma {:induction false} PlainStays(s: L.State, t: L.State)
    requires Plain(s) && t.accounts == s.accounts
    ensures Plain(t)
  {
    forall a | CommissionSide(a) ensures PlainAt(t, a) { assert PlainAt(s, a); }
  }

  /** A level's saga leaves funding transfers alone. */
  lemma {:induction false} SagaSame(w: World, e: Earner, p: Payload, env: Env, id: TransferId)
    requires id.CommFund?
    ensures SameRecord(w.books, Saga(w, e, p, env).0.books, id)
  {
    hide SameRecord, L.Step;
    var k := KeyFor(e, p);
    var w1 := Do(w, L.DoHold(HoldId(k), HoldTransfer(p)));
    SameThen(w.books, w.books, w.books, id);
    DoSame(w, L.DoHold(HoldId(k), HoldTransfer(p)), id);
    DoSame(w1, L.DoPost(HoldId(k), PostId(k), p.amount), id);
    DoSame(w1, L.DoVoid(HoldId(k)), id);
    SameThen(w.books, w1.books, Do(w1, L.DoPost(HoldId(k), PostId(k), p.amount)).books, id);
    SameThen(w.books, w1.books, Do(w1, L.DoVoid(HoldId(k))).books, id);
  }

  lemma {:induction false} DoSame(w: World, op: L.Op, id: TransferId)
    requires !Names(op, id) && !id.Random? && id != NoTransfer
    ensures SameRecord(w.books, Do(w, op).books, id)
  {
    StepFrame(w.books, op, id);
  }

  lemma {:induction false} SameThen(s: L.State, t: L.State, u: L.State, id: TransferId)
    ensures SameRecord(s, s, id)
    ensures SameRecord(s, t, id) && SameRecord(t, u, id) ==> SameRecord(s, u, id)
  {
  }

  /** After the record expired, an accrual of twice the base moves no commission and rewrites the record. */
  lemma {:induction false} SecondRewrites(w: World)
    requires Inv(w, map[]) && w.life == Forever && Plain(w.books)
    requires PaidAs(w.books, LEVEL_ONE, Owing(10000, 100)) && FundId(SECOND, 200) !in w.books.transfers
    requires LEVEL_ONE in w.records && w.records[LEVEL_ONE] == RecordFor(AGENT, Owing(10000, 100), Clock(0))
    ensures var env := Clock(RECORD_TTL + 1);
            var v := Accrue(w, SECOND, env).0;
            && Inv(v, map[]) && v.life == Forever && Plain(v.books) && Ready(v.books, "a")
            && PaidAs(v.books, LEVEL_ONE, Owing(10000, 100))
            && LEVEL_ONE in v.records && v.records[LEVEL_ONE] == RecordFor(AGENT, Owing(20000, 200), env)
            && (ClawbackId(LEVEL_ONE) in v.books.transfers ==> ClawbackId(LEVEL_ONE) in w.books.transfers)
  {
    var env := Clock(RECORD_TTL + 1);
    Amounts(RECORD_TTL + 1);
    AccrueKeeps(w, SECOND, env, map[]);
    OneLevel(w, SECOND, env, 200, Owing(20000, 200));
    var v := Do(Prepared(w, SECOND), L.DoDirect(FundId(SECOND, 200), FundTransfer(200)));
    SagaRewrites(v, AGENT, Owing(20000, 200), env);
  }

  /** The three calls: accrue on 10000, accrue on 20000 after the record expired, claw back. */
  function ThreeCalls(r: Record): seq<Call>
  {
    [Call(DoAccrue(FIRST, Clock(0)), Forever)]
    + [Call(DoAccrue(SECOND, Clock(RECORD_TTL + 1)), Forever)]
    + [Call(DoClawback("t", "r", [r], _ => false), Forever)]
  }

  lemma {:induction false} RunThree(w: World, c1: Call, c2: Call, c3: Call)
    requires Admissible(w, c1.op, map[]) && Admissible(Step(w, c1.op, c1.life), c2.op, map[])
    requires Admissible(Step(Step(w, c1.op, c1.life), c2.op, c2.life), c3.op, map[])
    ensures AdmissibleRun(w, [c1] + [c2] + [c3], map[])
    ensures Run(w, [c1] + [c2] + [c3]) == Step(Step(Step(w, c1.op, c1.life), c2.op, c2.life), c3.op, c3.life)
  {
    var one, two := [c1], [c1] + [c2];
    var three := two + [c3];
    assert one[..0] == [] && two[..1] == one && three[..2] == two;
    assert Run(w, one[..0]) == w;
    assert Run(w, one) == Step(w, c1.op, c1.life);
    assert AdmissibleRun(w, one, map[]);
    assert Run(w, two) == Step(Run(w, one), c2.op, c2.life);
    assert AdmissibleRun(w, two, map[]);
  }

  lemma {:induction false} ClawsOne(w: World, r: Record)
    requires Targeted(r, "t", "r")
    ensures Clawback(w, "t", "r", [r], _ => false).0 == ClawOne(w, r, false).0
  {
    var fault: Key -> bool := _ => false;
    assert forall v :: ClawFrom(v, "t", "r", [r], fault, 1) == (v, true);
    assert ClawFrom(w, "t", "r", [r], fault, 0).0 == ClawOne(w, r, false).0;
  }

  /** The clawback of the rewritten record. */
  lemma {:induction false} ThirdTakes(w: World, r: Record)
    requires Inv(w, map[]) && w.life == Forever && Plain(w.books)
    requires PaidAs(w.books, LEVEL_ONE, Owing(10000, 100)) && ClawbackId(LEVEL_ONE) !in w.books.transfers
    requires LEVEL_ONE in w.records && w.records[LEVEL_ONE] == r && r.payload == Owing(20000, 200) && Targeted(r, "t", "r")
    requires KeyOf(r) == LEVEL_ONE
    ensures var s := Step(w, DoClawback("t", "r", [r], _ => false), Forever).books;
            && MovedOnce(s.journal, PostId(LEVEL_ONE), CommissionPool, AgentCommission("a"), 100)
            && MovedOnce(s.journal, ClawbackId(LEVEL_ONE), AgentCommission("a"), CommissionPool, 200)
  {
    assert PlainAt(w.books, CommissionPool) && PlainAt(w.books, AgentCommission("a"));
    ClawsOne(w, r);
    ClawbackTakesRecord(w, r);
    var v := ClawOne(w, r, false).0;
    assert SettledAt(w.books, v.books, PostId(LEVEL_ONE));
    BothMoved(v, LEVEL_ONE);
    assert w.(life := Forever) == w;
  }

  lemma {:induction false} ThreeCallsDrift(w: World, r: Record)
    requires Inv(w, map[]) && w.life == Forever && Untouched(w)
    requires r == RecordFor(AGENT, Owing(20000, 200), Clock(RECORD_TTL + 1))
    ensures AdmissibleRun(w, ThreeCalls(r), map[])
    ensures var j := Run(w, ThreeCalls(r)).books.journal;
            && MovedOnce(j, PostId(LEVEL_ONE), CommissionPool, AgentCommission("a"), 100)
            && MovedOnce(j, ClawbackId(LEVEL_ONE), AgentCommission("a"), CommissionPool, 200)
  {
    hide Inv, Accrue, Clawback, MovedOnce, Plain;
    FirstPays(w);
    var w1 := Accrue(w, FIRST, Clock(0)).0;
    SecondRewrites(w1);
    ThirdTakes(Accrue(w1, SECOND, Clock(RECORD_TTL + 1)).0, r);
    assert w.(life := Forever) == w && w1.(life := Forever) == w1;
    RunThree(w, Call(DoAccrue(FIRST, Clock(0)), Forever), Call(DoAccrue(SECOND, Clock(RECORD_TTL + 1)), Forever),
             Call(DoClawback("t", "r", [r], _ => false), Forever));
  }

  /**
   A run of three calls in which the level is paid one hundred once and the
   clawback takes two hundred: the reversal is not the post's inverse here.
   */
  lemma {:induction false} ClawbackCanTakeMore() returns (calls: seq<Call>)
    ensures AdmissibleRun(START, calls, map[])
    ensures var j := Run(START, calls).books.journal;
            && MovedOnce(j, PostId(LEVEL_ONE), CommissionPool, AgentCommission("a"), 100)
            && MovedOnce(j, ClawbackId(LEVEL_ONE), AgentCommission("a"), CommissionPool, 200)
  {
    var r := RecordFor(AGENT, Owing(20000, 200), Clock(RECORD_TTL + 1));
    StartHolds(map[]);
    ThreeCallsDrift(START, r);
    calls := ThreeCalls(r);
  }

  // ---------------------------------------------------------------- when an accrual funds

  /** The accrual adds a funding transfer under this id: it is not refused, and this reference was not funded with this total. */
  predicate Funds(s: L.State, req: Request, rates: map<nat, nat>, id: TransferId)
  {
    !Refused(req, rates) && id == FundId(req, Total(req, rates)) && id !in s.transfers
  }

  lemma {:induction false} EnsureOpens(w: World, a: AccountId)
    requires w.life == Forever && CommissionSide(a)
    ensures var v := Ensure(w, a);
            && v.life == Forever && a in v.books.accounts
            && v.books.transfers == w.books.transfers && v.books.journal == w.books.journal
            && (forall b :: b in w.books.accounts ==> b in v.books.accounts)
            && (forall b :: CommissionSide(b) && PlainAt(w.books, b) ==> PlainAt(v.books, b))
  {
    if a !in w.books.accounts { OpenSingle(w.books, a, COMMISSION_ACCOUNT); }
  }

  lemma {:induction false} PreparedOpens(w: World, req: Request)
    requires w.life == Forever && req.earners != []
    requires PlainAt(w.books, CommissionTreasury) && PlainAt(w.books, CommissionPool)
    ensures var v := Prepared(w, req);
            && v.life == Forever && CommissionTreasury in v.books.accounts && CommissionPool in v.books.accounts
            && PlainAt(v.books, CommissionTreasury) && PlainAt(v.books, CommissionPool)
            && v.books.transfers == w.books.transfers && v.books.journal == w.books.journal
  {
    hide Ensure;
    EnsureOpens(w, CommissionTreasury);
    var w1 := Ensure(w, CommissionTreasury);
    EnsureOpens(w1, CommissionPool);
    EnsureOpens(Ensure(w1, CommissionPool), AgentCommission(req.earners[0].agent));
  }

  /** The calls of a level's saga leave what is recorded under a funding id as it was in `s`. */
  lemma {:induction false} CallLeavesFund(s: L.State, w: World, op: L.Op, id: TransferId)
    requires id.CommFund? && SameRecord(s, w.books, id) && !Names(op, id)
    ensures SameRecord(s, Do(w, op).books, id)
  {
    hide L.Step;
    StepFrame(w.books, op, id);
  }

  lemma {:induction false} PreparedLeavesFund(s: L.State, w: World, agent: string, id: TransferId)
    requires id.CommFund? && SameRecord(s, w.books, id)
    ensures SameRecord(s, EnsureBoth(w, agent).books, id)
  {
    hide Do, SameRecord;
    CallLeavesFund(s, w, L.DoCreate([L.AccountSpec(CommissionPool, COMMISSION_ACCOUNT)]), id);
    var w1 := Ensure(w, CommissionPool);
    CallLeavesFund(s, w1, L.DoCreate([L.AccountSpec(AgentCommission(agent), COMMISSION_ACCOUNT)]), id);
  }

  lemma {:induction false} SagaLeavesFund(s: L.State, w: World, e: Earner, p: Payload, env: Env, id: TransferId)
    requires id.CommFund? && SameRecord(s, w.books, id)
    ensures SameRecord(s, Saga(w, e, p, env).0.books, id)
  {
    hide Do, SameRecord, L.Hold, L.Post;
    var k := KeyFor(e, p);
    var op := L.DoHold(HoldId(k), HoldTransfer(p));
    CallLeavesFund(s, w, op, id);
    CallLeavesFund(s, Do(w, op), L.DoPost(HoldId(k), PostId(k), p.amount), id);
    CallLeavesFund(s, Do(w, op), L.DoVoid(HoldId(k)), id);
  }

  lemma {:induction false} LevelsLeaveFund(s: L.State, w: World, req: Request, env: Env, i: nat, id: TransferId)
    requires id.CommFund? && SameRecord(s, w.books, id) && i <= |req.earners|
    ensures SameRecord(s, AccrueFrom(w, req, env, i).0.books, id)
    decreases |req.earners| - i
  {
    hide SameRecord, EnsureBoth, Saga;
    if i < |req.earners| {
      if i + 1 in env.rates {
        var e, p := req.earners[i], PayloadAt(req, env, i);
        PreparedLeavesFund(s, w, e.agent, id);
        SagaLeavesFund(s, EnsureBoth(w, e.agent), e, p, env, id);
        LevelsLeaveFund(s, AccrueOne(w, e, p, env).0, req, env, i + 1, id);
      } else {
        LevelsLeaveFund(s, w, req, env, i + 1, id);
      }
    }
  }

  /**
   The exact condition for an accrual to move money out of the treasury, wherever its
   levels stand: it is accepted, and its total was not funded under its reference
   before. No other funding of any reference moves anything.
   */
  lemma {:induction false} FundsIff(w: World, req: Request, env: Env, id: TransferId)
    requires w.life == Forever && id.CommFund?
    requires PlainAt(w.books, CommissionTreasury) && PlainAt(w.books, CommissionPool)
    ensures var before, after := Moves(w.books.journal, id), Moves(Accrue(w, req, env).0.books.journal, id);
            after == if Funds(w.books, req, env.rates, id) then before + 1 else before
  {
    hide SameRecord, AccrueFrom, Total, L.Direct, Prepared;
    if !Refused(req, env.rates) {
      var total := Total(req, env.rates);
      var w1 := Prepared(w, req);
      PreparedOpens(w, req);
      FundCounts(w1, req, total, id);
      var w2 := Do(w1, L.DoDirect(FundId(req, total), FundTransfer(total)));
      SameAsItself(w2.books, id);
      LevelsLeaveFund(w2.books, w2, req, env, 0, id);
      SameMoves(w2.books, AccrueFrom(w2, req, env, 0).0.books, id);
      AccrueUnfolds(w, req, env);
    }
  }

  lemma {:induction false} AccrueUnfolds(w: World, req: Request, env: Env)
    requires !Refused(req, env.rates)
    ensures var total := Total(req, env.rates);
            var w1 := Prepared(w, req);
            Accrue(w, req, env)
            == if L.Direct(w1.books, FundId(req, total), FundTransfer(total)).1.Err? then (w1, false)
               else AccrueFrom(Do(w1, L.DoDirect(FundId(req, total), FundTransfer(total))), req, env, 0)
  {
    hide AccrueFrom, Total, L.Direct;
  }

  lemma {:induction false} SameAsItself(s: L.State, id: TransferId)
    ensures SameRecord(s, s, id)
  {
  }

  lemma {:induction false} SameMoves(s: L.State, t: L.State, id: TransferId)
    requires SameRecord(s, t, id)
    ensures Moves(t.journal, id) == Moves(s.journal, id)
  {
  }

  /** The funding call: a new transfer, or one that is known or refused and moves nothing. */
  lemma {:induction false} FundCounts(w: World, req: Request, total: nat, id: TransferId)
    requires w.life == Forever && id.CommFund? && req.earners != [] && total > 0
    requires CommissionTreasury in w.books.accounts && CommissionPool in w.books.accounts
    requires PlainAt(w.books, CommissionTreasury) && PlainAt(w.books, CommissionPool)
    ensures var op := L.DoDirect(FundId(req, total), FundTransfer(total));
            Moves(Do(w, op).books.journal, id)
            == Moves(w.books.journal, id) + if id == FundId(req, total) && id !in w.books.transfers then 1 else 0
    ensures FundId(req, total) !in w.books.transfers ==> L.Direct(w.books, FundId(req, total), FundTransfer(total)).1.Ok?
  {
    var op := L.DoDirect(FundId(req, total), FundTransfer(total));
    if id != FundId(req, total) {
      StepFrame(w.books, op, id);
    }
    if FundId(req, total) !in w.books.transfers { FundAccepted(w.books, req, total); }
  }

  // ---------------------------------------------------------------- funded twice

  lemma {:induction false} BooksKept(w: World)
    requires Inv(w, map[])
    ensures WellKept(w.books)
  {
  }

  lemma {:induction false} FirstLanded(w: World)
    requires Inv(w, map[]) && PaidAs(w.books, LEVEL_ONE, Owing(10000, 100)) && Ready(w.books, "a")
    requires CommissionTreasury in w.books.accounts
    ensures AllLanded(w.books, SECOND, TABLE)
  {
    Amounts(1);
    assert At(w, LEVEL_ONE, map[]);
    assert LandedFor(w.books, SECOND, 0);
  }

  /** The second request within the window: its total is funded, and the level, already paid, is refused. */
  lemma {:induction false} SecondFunds(w: World)
    requires Inv(w, map[]) && w.life == Forever && Plain(w.books)
    requires PaidAs(w.books, LEVEL_ONE, Owing(10000, 100)) && FundId(SECOND, 200) !in w.books.transfers
    requires Ready(w.books, "a") && CommissionTreasury in w.books.accounts
    ensures var v := Accrue(w, SECOND, Clock(1)).0;
            && FundId(SECOND, 200) in v.books.transfers && v.books.transfers[FundId(SECOND, 200)] == FundTransfer(200)
            && Moves(v.books.journal, FundId(SECOND, 200)) == 1
            && SameRecord(w.books, v.books, FundId(FIRST, 100)) && SameRecord(w.books, v.books, PostId(LEVEL_ONE))
  {
    hide Inv, L.Direct, SameRecord, Accrue, Moves, FundTransfer;
    Amounts(1);
    BooksKept(w);
    NothingMoved(w.books, FundId(SECOND, 200));
    assert PlainAt(w.books, CommissionTreasury) && PlainAt(w.books, CommissionPool);
    FirstLanded(w);
    ReplayOnlyFunds(w, SECOND, Clock(1));
    FundAccepted(w.books, SECOND, 200);
    var op := L.DoDirect(FundId(SECOND, 200), FundTransfer(200));
    StepFrame(w.books, op, FundId(FIRST, 100));
    StepFrame(w.books, op, PostId(LEVEL_ONE));
  }

  /**
   Two calls under one reference, the second with twice the base: one hundred is paid
   once, and one hundred and then two hundred leave the treasury.
   */
  lemma {:induction false} ReferenceFundedTwice() returns (calls: seq<Call>)
    ensures AdmissibleRun(START, calls, map[])
    ensures var j := Run(START, calls).books.journal;
            && MovedOnce(j, CommFund("t", "r", 100), CommissionTreasury, CommissionPool, 100)
            && MovedOnce(j, CommFund("t", "r", 200), CommissionTreasury, CommissionPool, 200)
            && MovedOnce(j, PostId(LEVEL_ONE), CommissionPool, AgentCommission("a"), 100)
  {
    var c1, c2 := Call(DoAccrue(FIRST, Clock(0)), Forever), Call(DoAccrue(SECOND, Clock(1)), Forever);
    StartHolds(map[]);
    hide Inv, Accrue, MovedOnce, SameRecord, Plain;
    assert Untouched(START) by { NothingPlain(); }
    FirstPays(START);
    var w1 := Accrue(START, FIRST, Clock(0)).0;
    SecondFunds(w1);
    var w2 := Accrue(w1, SECOND, Clock(1)).0;
    RunTwo(START, c1, c2);
    assert START.(life := Forever) == START && w1.(life := Forever) == w1;
    calls := [c1] + [c2];
    assert Run(START, calls) == w2;
    StepFollows(w1, c2.op, Forever, map[]);
    TwiceFunded(w1, w2);
  }

  lemma {:induction false} NothingPlain()
    ensures Plain(L.INITIAL)
  {
  }

  lemma {:induction false} TwiceFunded(w1: World, w2: World)
    requires Inv(w1, map[]) && Inv(w2, map[]) && PaidAs(w1.books, LEVEL_ONE, Owing(10000, 100))
    requires FundId(FIRST, 100) in w1.books.transfers && w1.books.transfers[FundId(FIRST, 100)] == FundTransfer(100)
    requires FundId(SECOND, 200) in w2.books.transfers && w2.books.transfers[FundId(SECOND, 200)] == FundTransfer(200)
    requires Moves(w1.books.journal, FundId(FIRST, 100)) == 1 && Moves(w2.books.journal, FundId(SECOND, 200)) == 1
    requires SameRecord(w1.books, w2.books, FundId(FIRST, 100)) && SameRecord(w1.books, w2.books, PostId(LEVEL_ONE))
    ensures var j := w2.books.journal;
            && MovedOnce(j, CommFund("t", "r", 100), CommissionTreasury, CommissionPool, 100)
            && MovedOnce(j, CommFund("t", "r", 200), CommissionTreasury, CommissionPool, 200)
            && MovedOnce(j, PostId(LEVEL_ONE), CommissionPool, AgentCommission("a"), 100)
  {
    assert At(w1, LEVEL_ONE, map[]);
    hide At, MovedOnce;
    MovedAsRecorded(w2.books, FundId(FIRST, 100));
    MovedAsRecorded(w2.books, FundId(SECOND, 200));
    MovedAsRecorded(w2.books, PostId(LEVEL_ONE));
  }

  lemma {:induction false} RunTwo(w: World, c1: Call, c2: Call)
    requires Admissible(w, c1.op, map[]) && Admissible(Step(w, c1.op, c1.life), c2.op, map[])
    ensures AdmissibleRun(w, [c1] + [c2], map[])
    ensures Run(w, [c1] + [c2]) == Step(Step(w, c1.op, c1.life), c2.op, c2.life)
  {
    var one, two := [c1], [c1] + [c2];
    assert one[..0] == [] && two[..1] == one;
    assert Run(w, one[..0]) == w && AdmissibleRun(w, one[..0], map[]);
    assert Run(w, one) == Step(w, c1.op, c1.life) && AdmissibleRun(w, one, map[]);
  }
}
