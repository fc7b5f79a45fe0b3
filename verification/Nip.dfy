/**
 Outbound NIP transfers (services/presumptive/nip_recon.go over the rail of nip.go):
 payouts and refunds under idempotency keys, a pending ledger leg settled with the
 rail's outcome, reversal, the status sweeper and the purge of expired keys.

 Every transfer is stored twice, under its session and under its idempotency key.
 The rail is a map of the outcomes it has committed to: it chooses freely until an
 outcome is final, and then repeats it. A process may die between any two calls:
 `life` counts the calls it still makes. Clock readings, new session ids, rail
 choices and lost store writes are parameters.
 */
module Nip {
  import opened Prelude
  import opened Ids
  import L = Ledger

  const TTL := 7 * 24 * 3600

  const NIP_ACCOUNT := L.Account(L.LEDGER_PSM_PAYMENTS, false, false)

  /** What a transfer is for; a caller of Payout names it, and an empty name means a payout. */
  datatype Purpose = Payout | Refund | OtherPurpose(name: string)

  datatype Status = InFlight | Success | Failed | Reversed

  datatype Request = Request(
    purpose: Purpose, key: string, amount: nat, account: string, bank: string, narration: string, source: SessionId)

  datatype Transfer = Transfer(session: SessionId, req: Request, status: Status, legged: bool, expiresAt: int)

  /** Where a copy of a transfer is stored: under its session, or under "idem:" and its key. */
  datatype Slot = Sess(session: SessionId) | Idem(key: string)

  datatype Dispatch = Dispatch(session: SessionId, key: string, at: int, expiresAt: int)

  datatype Dispatches = Unsent | Sent(past: Dispatches, last: Dispatch)

  datatype World = World(
    recs: map<Slot, Transfer>, rail: map<SessionId, Status>, log: Dispatches, books: L.State, clock: int, life: Life)

  /** What the rail does with a call, and whether the service hears the answer. */
  datatype Reply = Heard(choice: Status) | Unheard(choice: Status) | NotReceived

  /**
   Everything an operation may observe. `markLost` says which writes of the leg's id
   are lost, `lost` which writes of a session's outcome.
   */
  datatype Env = Env(
    now: int, session: SessionId, verified: bool, dispatch: Reply,
    tsq: SessionId -> Reply, reversal: SessionId -> Reply,
    idemFault: bool, sessFault: bool, markLost: Slot -> bool, lost: SessionId -> Slot -> bool)

  predicate Good(s: Status) { s == InFlight || s == Success }

  predicate Expired(t: Transfer, now: int) { now > t.expiresAt }

  predicate Terminal(s: Status) { s != InFlight }

  function LegTransfer(t: Transfer): L.Transfer
  {
    L.Transfer(Collections, NipClearing, L.LEDGER_PSM_PAYMENTS, L.CODE_HOLD, t.req.amount, true)
  }

  // ---------------------------------------------------------------- calls

  function Put(w: World, c: Slot, t: Transfer, fault: bool): World
  {
    if w.life == For(0) then w
    else if fault then w.(life := Tick(w.life))
    else w.(life := Tick(w.life), recs := w.recs[c := t])
  }

  function Delete(w: World, c: Slot): World
  {
    if w.life == For(0) then w else w.(life := Tick(w.life), recs := w.recs - {c})
  }

  function Do(w: World, op: L.Op): World
  {
    if w.life == For(0) then w else w.(life := Tick(w.life), books := L.Step(w.books, op))
  }

  /** put: the session record, then the idempotency record; failed writes are ignored. */
  function PutBoth(w: World, t: Transfer, lost: Slot -> bool): World
  {
    Put(Put(w, Sess(t.session), t, lost(Sess(t.session))), Idem(t.req.key), t, lost(Idem(t.req.key)))
  }

  /** The rail's answer about a session it was sent; an unknown session counts as not received. */
  function Answer(rail: map<SessionId, Status>, session: SessionId, choice: Status): Status
  {
    if session !in rail then Failed
    else if rail[session] == InFlight then choice
    else if rail[session] == Failed && choice == Reversed then Reversed
    else rail[session]
  }

  /** TransactionStatusQuery and Reversal at the rail: the answer, once given, is committed. */
  function Ask(w: World, session: SessionId, reply: Reply): World
  {
    if w.life == For(0) then w
    else if reply.NotReceived? then w.(life := Tick(w.life))
    else w.(life := Tick(w.life), rail := w.rail[session := Answer(w.rail, session, reply.choice)])
  }

  /** FundsTransfer: a session the rail already has is not executed again. */
  function Send(w: World, t: Transfer, now: int, reply: Reply): World
  {
    if w.life == For(0) then w
    else
      var v := w.(life := Tick(w.life), log := Sent(w.log, Dispatch(t.session, t.req.key, now, t.expiresAt)));
      if reply.NotReceived? || t.session in w.rail then v else v.(rail := w.rail[t.session := reply.choice])
  }

  function SendAnswer(w: World, t: Transfer, reply: Reply): Status
  {
    if t.session in w.rail then w.rail[t.session] else if reply.NotReceived? then InFlight else reply.choice
  }

  // ---------------------------------------------------------------- payout

  predicate Malformed(req: Request)
  {
    req.amount == 0 || req.account == "" || req.bank == "" || req.key == ""
  }

  /** payoutLocked. */
  function PayoutLocked(w: World, req: Request, env: Env): World
  {
    if Malformed(req) then w
    else if Idem(req.key) in w.recs && !Expired(w.recs[Idem(req.key)], env.now) then w
    else if !env.verified then w
    else Begin(w, NewTransfer(req, env), env)
  }

  function NewTransfer(req: Request, env: Env): Transfer
  {
    Transfer(env.session, req, InFlight, false, env.now + TTL)
  }

  /** The reply of payoutLocked to a key that is still in its window: the stored transfer, or a conflict. */
  function Replay(w: World, req: Request, env: Env): Option<Transfer>
    requires Idem(req.key) in w.recs
  {
    if w.recs[Idem(req.key)].req == req then Some(w.recs[Idem(req.key)]) else None
  }

  /** What payoutLocked answers: the transfer, or `None` for an error. */
  function PayoutAnswer(w: World, req: Request, env: Env): Option<Transfer>
  {
    if Malformed(req) then None
    else if Idem(req.key) in w.recs && !Expired(w.recs[Idem(req.key)], env.now) then Replay(w, req, env)
    else if !env.verified then None
    else BeginAnswer(w, NewTransfer(req, env), env)
  }

  function BeginAnswer(w: World, t: Transfer, env: Env): Option<Transfer>
  {
    if env.idemFault || env.sessFault then None
    else PlaceAnswer(Put(Put(w, Idem(t.req.key), t, false), Sess(t.session), t, false), t, env)
  }

  function PlaceAnswer(w: World, t: Transfer, env: Env): Option<Transfer>
  {
    var w1 := Do(Do(w, OpenAccount(Collections)), OpenAccount(NipClearing));
    if L.Hold(w1.books, NipLeg(t.session), LegTransfer(t)).1.Err? then None
    else
      var w2 := Do(w1, L.DoHold(NipLeg(t.session), LegTransfer(t)));
      FireAnswer(PutBoth(w2, t.(legged := true), env.markLost), t.(legged := true), env)
  }

  function FireAnswer(w: World, t: Transfer, env: Env): Option<Transfer>
  {
    if !env.dispatch.Heard? then Some(t)
    else ConcludeAnswer(Send(w, t, env.now, env.dispatch), t.(status := SendAnswer(w, t, env.dispatch)), env)
  }

  function ConcludeAnswer(w: World, t: Transfer, env: Env): Option<Transfer>
  {
    if t.status == Success && PostRefused(w, t) then None
    else if env.lost(t.session)(Idem(t.req.key)) || env.lost(t.session)(Sess(t.session)) then None
    else Some(t)
  }

  /** The in-flight record under both slots, before anything else. */
  function Begin(w: World, t: Transfer, env: Env): World
  {
    var w1 := Put(w, Idem(t.req.key), t, env.idemFault);
    if env.idemFault then w1
    else
      var w2 := Put(w1, Sess(t.session), t, env.sessFault);
      if env.sessFault then w2 else PlaceLeg(w2, t, env)
  }

  function OpenAccount(a: AccountId): L.Op
  {
    L.DoCreate([L.AccountSpec(a, NIP_ACCOUNT)])
  }

  /** ledgerPendingLeg, then the record again with the leg's id. */
  function PlaceLeg(w: World, t: Transfer, env: Env): World
  {
    var w1 := Do(Do(w, OpenAccount(Collections)), OpenAccount(NipClearing));
    if L.Hold(w1.books, NipLeg(t.session), LegTransfer(t)).1.Err? then w1
    else
      var w2 := Do(w1, L.DoHold(NipLeg(t.session), LegTransfer(t)));
      Fire(PutBoth(w2, t.(legged := true), env.markLost), t.(legged := true), env)
  }

  /** The rail dispatch; an answer that is not heard leaves the transfer in flight. */
  function Fire(w: World, t: Transfer, env: Env): World
  {
    var w1 := Send(w, t, env.now, env.dispatch);
    if !env.dispatch.Heard? then PutBoth(w1, t, env.lost(t.session))
    else Conclude(w1, t.(status := SendAnswer(w, t, env.dispatch)), env)
  }

  /** Settles the leg with the outcome, then writes the records, idempotency slot first. */
  function Conclude(w: World, t: Transfer, env: Env): World
  {
    match t.status
    case Success =>
      if PostRefused(w, t) then PostLeg(w, t) else WriteOutcome(PostLeg(w, t), t, env)
    case Failed => WriteOutcome(VoidLeg(w, t), t, env)
    case _ => WriteOutcome(w, t, env)
  }

  function WriteOutcome(w: World, t: Transfer, env: Env): World
  {
    var lost := env.lost(t.session);
    var w1 := Put(w, Idem(t.req.key), t, lost(Idem(t.req.key)));
    if lost(Idem(t.req.key)) then w1 else Put(w1, Sess(t.session), t, lost(Sess(t.session)))
  }

  predicate PostRefused(w: World, t: Transfer)
  {
    t.legged && L.Post(w.books, NipLeg(t.session), NipPost(t.session), t.req.amount).1.Err?
  }

  function PostLeg(w: World, t: Transfer): World
  {
    if t.legged then Do(w, L.DoPost(NipLeg(t.session), NipPost(t.session), t.req.amount)) else w
  }

  function VoidLeg(w: World, t: Transfer): World
  {
    if t.legged then Do(w, L.DoVoid(NipLeg(t.session))) else w
  }

  // ---------------------------------------------------------------- refund

  /** The refunds of a payout in a listing: the first copy of each session decides. */
  function Refunded(listed: seq<Transfer>, source: SessionId, seen: set<SessionId>): nat
  {
    if listed == [] then 0
    else
      var t := listed[0];
      if t.req.purpose == Refund && t.req.source == source && t.session !in seen then
        (if Good(t.status) then t.req.amount else 0) + Refunded(listed[1..], source, seen + {t.session})
      else Refunded(listed[1..], source, seen)
  }

  /** The cap check, in uint64 arithmetic. */
  predicate CapExceeded(listed: seq<Transfer>, source: SessionId, amount: nat, cap: nat)
  {
    (Refunded(listed, source, {}) + amount) % UINT64 > cap
  }

  /** The request a refund runs: bound to the source payout and its destination; `None` when refused. */
  function BoundRequest(w: World, req: Request, listed: seq<Transfer>): Option<Request>
  {
    if req.source == "" || Sess(req.source) !in w.recs then None
    else
      var src := w.recs[Sess(req.source)];
      if src.req.purpose != Payout || src.status != Success then None
      else if req.account != "" && req.account != src.req.account then None
      else if req.bank != "" && req.bank != src.req.bank then None
      else if CapExceeded(listed, req.source, req.amount, src.req.amount) then None
      else Some(req.(purpose := Refund, account := src.req.account, bank := src.req.bank))
  }

  function RefundFor(w: World, req: Request, listed: seq<Transfer>, env: Env): World
  {
    var bound := BoundRequest(w, req, listed);
    if bound.None? then w else PayoutLocked(w, bound.value, env)
  }

  function RefundAnswer(w: World, req: Request, listed: seq<Transfer>, env: Env): Option<Transfer>
  {
    var bound := BoundRequest(w, req, listed);
    if bound.None? then None else PayoutAnswer(w, bound.value, env)
  }

  // ---------------------------------------------------------------- reversal, sweep, purge

  /** Reversal answers with the transfer: it was reversed before, or is not settled and the rail answered. */
  predicate Unwound(w: World, session: SessionId, env: Env)
  {
    && Sess(session) in w.recs
    && (w.recs[Sess(session)].status == Reversed
        || (w.recs[Sess(session)].status != Success && env.reversal(session).Heard?))
  }

  function Reverse(w: World, session: SessionId, env: Env): World
  {
    if Sess(session) !in w.recs || w.recs[Sess(session)].status in {Success, Reversed} then w
    else
      var reply := env.reversal(session);
      var w1 := Ask(w, session, reply);
      if !reply.Heard? then w1
      else PutBoth(w1, w.recs[Sess(session)].(status := Answer(w.rail, session, reply.choice)), env.lost(session))
  }

  /** One in-flight row of SweepTSQ. */
  function Resolve(w: World, t: Transfer, env: Env): World
  {
    var reply := env.tsq(t.session);
    var w1 := Ask(w, t.session, reply);
    if !reply.Heard? then w1
    else
      match Answer(w.rail, t.session, reply.choice)
      case Success =>
        if PostRefused(w1, t) then PostLeg(w1, t)
        else PutBoth(PostLeg(w1, t), t.(status := Success), env.lost(t.session))
      case Failed => Reverse(VoidLeg(w1, t), t.session, env)
      case _ => w1
  }

  function Sweep(w: World, listed: seq<Transfer>, env: Env, seen: set<SessionId>): World
    decreases |listed|
  {
    if listed == [] then w
    else if listed[0].status != InFlight || listed[0].session in seen then Sweep(w, listed[1..], env, seen)
    else Sweep(Resolve(w, listed[0], env), listed[1..], env, seen + {listed[0].session})
  }

  predicate Purged(t: Transfer, now: int)
  {
    t.req.key != "" && Expired(t, now) && Terminal(t.status)
  }

  /** PurgeExpiredIdempotency over a listing. */
  function Purge(w: World, listed: seq<Transfer>, now: int): World
    decreases |listed|
  {
    if listed == [] then w
    else if Purged(listed[0], now) then Purge(Delete(w, Idem(listed[0].req.key)), listed[1..], now)
    else Purge(w, listed[1..], now)
  }

  // ---------------------------------------------------------------- runs

  datatype Op =
    | DoPayout(req: Request, env: Env)
    | DoRefund(req: Request, listed: seq<Transfer>, env: Env)
    | DoReversal(session: SessionId, env: Env)
    | DoSweep(listed: seq<Transfer>, env: Env)
    | DoPurge(listed: seq<Transfer>, now: int)
    | DoElsewhere(op: L.Op)  // another service uses the same ledger

  function TimeOf(w: World, op: Op): int
  {
    match op
    case DoPurge(_, now) => now
    case DoElsewhere(_) => w.clock
    case _ => op.env.now
  }

  /** A process with the given life runs one operation. */
  function Step(w: World, op: Op, life: Life): World
  {
    var v := w.(clock := TimeOf(w, op), life := life);
    match op
    case DoPayout(req, env) => PayoutLocked(v, req, env)
    case DoRefund(req, listed, env) => RefundFor(v, req, listed, env)
    case DoReversal(session, env) => Reverse(v, session, env)
    case DoSweep(listed, env) => Sweep(v, listed, env, {})
    case DoPurge(listed, now) => Purge(v, listed, now)
    case DoElsewhere(op) => v.(books := L.Step(v.books, op))
  }
}
