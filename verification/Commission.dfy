/**
 The commission engine (services/onboarding/commission_engine.go): for one settled
 transaction it funds the pool and runs a hold, post, mark saga for the capturing
 agent and each agent above it; a clawback reverses what was posted.

 A process may die between any two durable calls: `life` counts the calls it
 still makes. The clock, the rate table, the upline and store faults are
 parameters. The payload hash is the tuple it hashes.
 */
module Commissions {
  import opened Prelude
  import opened Ids
  import L = Ledger

  const RECORD_TTL := 35 * 24 * 3600

  const COMMISSION_ACCOUNT := L.Account(L.LEDGER_COMMISSIONS, false, false)

  /** computeKobo: the product wraps at 64 bits before the division. */
  function ComputeKobo(base: nat, bps: nat): nat
  {
    base * bps % UINT64 / 10000
  }

  datatype Status = Posted | ClawedBack

  datatype Payload = Payload(agent: string, reference: string, level: nat, bps: nat, base: nat, amount: nat, pack: string)

  datatype Record = Record(tenant: string, payload: Payload, status: Status, expiresAt: int)

  /** recordKey. */
  datatype Key = Key(tenant: string, reference: string, level: nat)

  datatype World = World(records: map<Key, Record>, books: L.State, life: Life)

  datatype Earner = Earner(agent: string, tenant: string)

  /** The agent itself first, then its upline; empty when the agent is unknown. */
  datatype Request = Request(earners: seq<Earner>, reference: string, base: nat)

  datatype Env = Env(now: int, pack: string, rates: map<nat, nat>, markFault: nat -> bool)

  function KeyOf(r: Record): Key { Key(r.tenant, r.payload.reference, r.payload.level) }
  function HoldId(k: Key): TransferId { CommHold(k.tenant, k.reference, k.level) }
  function PostId(k: Key): TransferId { CommPost(k.tenant, k.reference, k.level) }
  function ClawbackId(k: Key): TransferId { CommClawback(k.tenant, k.reference, k.level) }

  function HoldTransfer(p: Payload): L.Transfer
  {
    L.Transfer(CommissionPool, AgentCommission(p.agent), L.LEDGER_COMMISSIONS, L.CODE_HOLD, p.amount, true)
  }

  function ReversalTransfer(p: Payload): L.Transfer
  {
    L.Transfer(AgentCommission(p.agent), CommissionPool, L.LEDGER_COMMISSIONS, L.CODE_VOID, p.amount, false)
  }

  function FundTransfer(total: nat): L.Transfer
  {
    L.Transfer(CommissionTreasury, CommissionPool, L.LEDGER_COMMISSIONS, L.CODE_TOPUP, total, false)
  }

  // ---------------------------------------------------------------- durable calls

  function Do(w: World, op: L.Op): World
  {
    if w.life == For(0) then w else w.(life := Tick(w.life), books := L.Step(w.books, op))
  }

  function Save(w: World, r: Record, fault: bool): World
  {
    if w.life == For(0) then w
    else if fault then w.(life := Tick(w.life))
    else w.(life := Tick(w.life), records := w.records[KeyOf(r) := r])
  }

  function Erase(w: World, k: Key): World
  {
    if w.life == For(0) then w else w.(life := Tick(w.life), records := w.records - {k})
  }

  function Ensure(w: World, a: AccountId): World
  {
    if a in w.books.accounts then w else Do(w, L.DoCreate([L.AccountSpec(a, COMMISSION_ACCOUNT)]))
  }

  /** ensureAccounts: the pool and the agent's payable account. */
  function EnsureBoth(w: World, agent: string): World
  {
    Ensure(Ensure(w, CommissionPool), AgentCommission(agent))
  }

  // ---------------------------------------------------------------- accrue

  /** The amount due at each level the table has a rate for, summed in uint64. */
  function TotalUpTo(req: Request, rates: map<nat, nat>, n: nat): nat
    requires n <= |req.earners|
  {
    if n == 0 then 0
    else if n in rates then (TotalUpTo(req, rates, n - 1) + ComputeKobo(req.base, rates[n])) % UINT64
    else TotalUpTo(req, rates, n - 1)
  }

  function Total(req: Request, rates: map<nat, nat>): nat
  {
    TotalUpTo(req, rates, |req.earners|)
  }

  predicate Refused(req: Request, rates: map<nat, nat>)
  {
    req.earners == [] || req.earners[0].agent == "" || req.reference == "" || req.base == 0 || Total(req, rates) == 0
  }

  function FundId(req: Request, total: nat): TransferId
    requires req.earners != []
  {
    CommFund(req.earners[0].tenant, req.reference, total)
  }

  function Accrue(w: World, req: Request, env: Env): (World, bool)
  {
    if Refused(req, env.rates) then (w, false)
    else
      var total := Total(req, env.rates);
      var w1 := EnsureBoth(Ensure(w, CommissionTreasury), req.earners[0].agent);
      if L.Direct(w1.books, FundId(req, total), FundTransfer(total)).1.Err? then (w1, false)
      else AccrueFrom(Do(w1, L.DoDirect(FundId(req, total), FundTransfer(total))), req, env, 0)
  }

  /** The loop over earners from index `i`: the first failure ends it. */
  function AccrueFrom(w: World, req: Request, env: Env, i: nat): (World, bool)
    requires i <= |req.earners|
    decreases |req.earners| - i
  {
    if i == |req.earners| then (w, true)
    else if i + 1 !in env.rates then AccrueFrom(w, req, env, i + 1)
    else
      var (w1, ok) := AccrueOne(w, req.earners[i], PayloadAt(req, env, i), env);
      if ok then AccrueFrom(w1, req, env, i + 1) else (w1, false)
  }

  function PayloadAt(req: Request, env: Env, i: nat): Payload
    requires i < |req.earners| && i + 1 in env.rates
  {
    Payload(req.earners[i].agent, req.reference, i + 1, env.rates[i + 1], req.base,
            ComputeKobo(req.base, env.rates[i + 1]), env.pack)
  }

  function KeyFor(e: Earner, p: Payload): Key { Key(e.tenant, p.reference, p.level) }

  /** liveRecord: stored and not past its expiry. */
  predicate Live(w: World, k: Key, now: int)
  {
    k in w.records && now <= w.records[k].expiresAt
  }

  /** accrueOne: the state it leaves and whether it returned a record. */
  function AccrueOne(w: World, e: Earner, p: Payload, env: Env): (World, bool)
  {
    var k := KeyFor(e, p);
    if Live(w, k, env.now) && w.records[k].payload != p then (w, false)
    else if Live(w, k, env.now) && (w.records[k].status == ClawedBack || PostId(k) in w.books.transfers) then (w, true)
    else Saga(EnsureBoth(w, e.agent), e, p, env)
  }

  function Saga(w: World, e: Earner, p: Payload, env: Env): (World, bool)
  {
    var k := KeyFor(e, p);
    var held := L.Hold(w.books, HoldId(k), HoldTransfer(p)).1;
    if held.Ok? then PostAndMark(Do(w, L.DoHold(HoldId(k), HoldTransfer(p))), e, p, env)
    else if held.error == L.TransferIdConflict && PostId(k) in w.books.transfers then Mark(w, e, p, env)
    else (w, false)
  }

  function PostAndMark(w: World, e: Earner, p: Payload, env: Env): (World, bool)
  {
    var k := KeyFor(e, p);
    if L.Post(w.books, HoldId(k), PostId(k), p.amount).1.Ok?
    then Mark(Do(w, L.DoPost(HoldId(k), PostId(k), p.amount)), e, p, env)
    else (Erase(Do(w, L.DoVoid(HoldId(k))), k), false)
  }

  function RecordFor(e: Earner, p: Payload, env: Env): Record
  {
    Record(e.tenant, p, Posted, env.now + RECORD_TTL)
  }

  function Mark(w: World, e: Earner, p: Payload, env: Env): (World, bool)
  {
    (Save(w, RecordFor(e, p, env), env.markFault(p.level)), !env.markFault(p.level))
  }

  // ---------------------------------------------------------------- clawback

  /** The loop of Clawback over the records listed at its start. */
  function ClawFrom(w: World, tenant: string, reference: string, listed: seq<Record>, fault: Key -> bool, i: nat): (World, bool)
    requires i <= |listed|
    decreases |listed| - i
  {
    if i == |listed| then (w, true)
    else if !Targeted(listed[i], tenant, reference) then ClawFrom(w, tenant, reference, listed, fault, i + 1)
    else
      var (w1, ok) := ClawOne(w, listed[i], fault(KeyOf(listed[i])));
      if ok then ClawFrom(w1, tenant, reference, listed, fault, i + 1) else (w1, false)
  }

  predicate Targeted(r: Record, tenant: string, reference: string)
  {
    r.payload.reference == reference && (tenant == "" || r.tenant == tenant) && r.status == Posted
  }

  function ClawOne(w: World, r: Record, fault: bool): (World, bool)
  {
    var w1 := EnsureBoth(w, r.payload.agent);
    var id := ClawbackId(KeyOf(r));
    var reversed := L.Direct(w1.books, id, ReversalTransfer(r.payload)).1;
    if reversed.Err? && reversed.error != L.TransferIdConflict then (w1, false)
    else (Save(Do(w1, L.DoDirect(id, ReversalTransfer(r.payload))), r.(status := ClawedBack), fault), !fault)
  }

  function Clawback(w: World, tenant: string, reference: string, listed: seq<Record>, fault: Key -> bool): (World, bool)
  {
    if reference == "" then (w, false) else ClawFrom(w, tenant, reference, listed, fault, 0)
  }

  // ---------------------------------------------------------------- runs

  datatype Op =
    | DoAccrue(req: Request, env: Env)
    | DoClawback(tenant: string, reference: string, listed: seq<Record>, fault: Key -> bool)
    | DoForget(k: Key)       // a record is deleted
    | DoElsewhere(op: L.Op)  // another service uses the same ledger

  /** A process with the given life runs one operation. */
  function Step(w: World, op: Op, life: Life): World
  {
    var v := w.(life := life);
    match op
    case DoAccrue(req, env) => Accrue(v, req, env).0
    case DoClawback(tenant, reference, listed, fault) => Clawback(v, tenant, reference, listed, fault).0
    case DoForget(k) => Erase(v, k)
    case DoElsewhere(op) => v.(books := L.Step(v.books, op))
  }
}
