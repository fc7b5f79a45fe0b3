/**
 The NIP service (services/presumptive/nip_recon.go) as the object it is: stored
 transfers updated in place around calls to the ledger client and the rail. Each
 method is proved to take the durable world where the function of `Nip` takes it.
 */
module NipServices {
  import opened Prelude
  import opened Ids
  import opened DevLedger
  import L = Ledger
  import N = Nip
  import opened Nip
  import K = NipLaws
  import A = NipAnswers

  class NipService {
    const lc: DevClient
    var recs: map<Slot, Transfer>
    // The rail at the other end of the wire: the outcomes it has committed to.
    var rail: map<SessionId, Status>
    ghost var log: Dispatches
    ghost var clock: int

    constructor (lc: DevClient)
      requires lc.Valid()
      ensures Valid() && this.lc == lc && Durable() == World(map[], map[], Unsent, lc.Model(), 0, Forever)
    {
      this.lc := lc;
      recs, rail, log, clock := map[], map[], Unsent, 0;
    }

    ghost function Durable(): World
      reads this, lc
    {
      World(recs, rail, log, lc.Model(), clock, Forever)
    }

    ghost predicate Valid()
      reads this, lc
    {
      lc.Valid()
    }

    /** Records, rail and ledger agree: the invariant of `NipLaws`. */
    ghost predicate Lawful(mode: K.Mode)
      reads this, lc
    {
      K.Inv(Durable(), mode)
    }

    method Store(c: Slot, t: Transfer, fault: bool)
      requires Valid()
      modifies this`recs
      ensures Valid() && Durable() == N.Put(old(Durable()), c, t, fault)
    {
      if !fault { recs := recs[c := t]; }
    }

    method StoreBoth(t: Transfer, lost: Slot -> bool)
      requires Valid()
      modifies this`recs
      ensures Valid() && Durable() == N.PutBoth(old(Durable()), t, lost)
    {
      Store(Sess(t.session), t, lost(Sess(t.session)));
      Store(Idem(t.req.key), t, lost(Idem(t.req.key)));
    }

    /** A status query or a reversal at the rail; `None` when no answer is heard. */
    method AskRail(session: SessionId, reply: Reply) returns (answer: Option<Status>)
      requires Valid()
      modifies this`rail
      ensures Valid() && Durable() == Ask(old(Durable()), session, reply)
      ensures answer == if reply.Heard? then Some(Answer(old(rail), session, reply.choice)) else None
    {
      if reply.NotReceived? { return None; }
      var committed := Answer(rail, session, reply.choice);
      rail := rail[session := committed];
      answer := if reply.Heard? then Some(committed) else None;
    }

    method FundsTransfer(t: Transfer, now: int, reply: Reply) returns (answer: Option<Status>)
      requires Valid()
      modifies this`rail, this`log
      ensures Valid() && Durable() == Send(old(Durable()), t, now, reply)
      ensures answer == if reply.Heard? then Some(SendAnswer(old(Durable()), t, reply)) else None
    {
      log := Sent(log, Dispatch(t.session, t.req.key, now, t.expiresAt));
      if reply.NotReceived? { return None; }
      if t.session !in rail { rail := rail[t.session := reply.choice]; }
      answer := if reply.Heard? then Some(rail[t.session]) else None;
    }

    method PostLedgerLeg(t: Transfer) returns (ok: bool)
      requires Valid()
      modifies lc
      ensures Valid() && Durable() == N.PostLeg(old(Durable()), t) && ok == !PostRefused(old(Durable()), t)
    {
      if !t.legged { return true; }
      var posted := lc.PostPendingAs(NipLeg(t.session), NipPost(t.session), t.req.amount);
      ok := posted.Ok?;
    }

    method VoidLedgerLeg(t: Transfer)
      requires Valid()
      modifies lc
      ensures Valid() && Durable() == N.VoidLeg(old(Durable()), t)
    {
      if t.legged { var _ := lc.VoidPending(NipLeg(t.session)); }
    }

    /** payoutLocked: replays a key in its window, otherwise records, holds, dispatches and settles. */
    method PayoutLocked(req: Request, env: Env) returns (reply: Option<Transfer>)
      requires Valid()
      modifies this, lc
      ensures Valid() && Durable() == N.PayoutLocked(old(Durable()), req, env)
      ensures reply == PayoutAnswer(old(Durable()), req, env)
      ensures old(K.Unused(Durable(), env.session)) ==>
                forall mode: K.Mode :: !mode.Exact? && old(Lawful(mode) && K.Room(Durable(), NewTransfer(req, env), mode)) ==> Lawful(mode)
    {
      hide K.Inv, K.Unused, K.Room, N.Begin;
      if K.Unused(Durable(), env.session) {
        forall mode: K.Mode | !mode.Exact? && Lawful(mode) && K.Room(Durable(), NewTransfer(req, env), mode)
          ensures K.Inv(N.PayoutLocked(Durable(), req, env), mode)
        {
          K.PayoutKeeps(Durable(), req, env, mode);
        }
      }
      if req.amount == 0 || req.account == "" || req.bank == "" || req.key == "" { return None; }
      if Idem(req.key) in recs {
        var existing := recs[Idem(req.key)];
        if !Expired(existing, env.now) {
          if existing.req != req { return None; }
          return Some(existing);
        }
      }
      if !env.verified { return None; }
      reply := BeginTransfer(NewTransfer(req, env), env);
    }

    method BeginTransfer(t: Transfer, env: Env) returns (reply: Option<Transfer>)
      requires Valid()
      modifies this, lc
      ensures Valid() && Durable() == N.Begin(old(Durable()), t, env)
      ensures reply == BeginAnswer(old(Durable()), t, env)
    {
      Store(Idem(t.req.key), t, env.idemFault);
      if env.idemFault { return None; }
      Store(Sess(t.session), t, env.sessFault);
      if env.sessFault { return None; }
      reply := PlaceAndFire(t, env);
    }

    method OpenLegAccounts()
      requires Valid()
      modifies lc
      ensures Valid() && Durable() == N.Do(N.Do(old(Durable()), OpenAccount(Collections)), OpenAccount(NipClearing))
    {
      var _ := lc.CreateAccounts([L.AccountSpec(Collections, NIP_ACCOUNT)]);
      var _ := lc.CreateAccounts([L.AccountSpec(NipClearing, NIP_ACCOUNT)]);
    }

    method PlaceAndFire(t: Transfer, env: Env) returns (reply: Option<Transfer>)
      requires Valid()
      modifies this, lc
      ensures Valid() && Durable() == N.PlaceLeg(old(Durable()), t, env)
      ensures reply == PlaceAnswer(old(Durable()), t, env)
    {
      hide L.Hold, L.CreateAccounts, N.Fire, FireAnswer, N.PutBoth;
      OpenLegAccounts();
      var held := lc.PendingTransfer(NipLeg(t.session), LegTransfer(t));
      if held.Err? { return None; }
      StoreBoth(t.(legged := true), env.markLost);
      reply := FireTransfer(t.(legged := true), env);
    }

    method FireTransfer(t: Transfer, env: Env) returns (reply: Option<Transfer>)
      requires Valid()
      modifies this, lc
      ensures Valid() && Durable() == N.Fire(old(Durable()), t, env)
      ensures reply == FireAnswer(old(Durable()), t, env)
    {
      var answer := FundsTransfer(t, env.now, env.dispatch);
      if answer.None? {
        StoreBoth(t, env.lost(t.session));
        return Some(t);
      }
      reply := ConcludeTransfer(t.(status := answer.value), env);
    }

    method ConcludeTransfer(t: Transfer, env: Env) returns (reply: Option<Transfer>)
      requires Valid()
      modifies this`recs, lc
      ensures Valid() && Durable() == N.Conclude(old(Durable()), t, env)
      ensures reply == ConcludeAnswer(old(Durable()), t, env)
    {
      if t.status == Success {
        var ok := PostLedgerLeg(t);
        if !ok { return None; }
      } else if t.status == Failed {
        VoidLedgerLeg(t);
      }
      var lost := env.lost(t.session);
      Store(Idem(t.req.key), t, lost(Idem(t.req.key)));
      if lost(Idem(t.req.key)) { return None; }
      Store(Sess(t.session), t, lost(Sess(t.session)));
      reply := if lost(Sess(t.session)) then None else Some(t);
    }

    /** The history loop of Refund: counts the first copy of each session it meets. */
    method RefundedSoFar(listed: seq<Transfer>, source: SessionId) returns (refunded: nat)
      ensures refunded == Refunded(listed, source, {})
    {
      refunded := 0;
      var seen: set<SessionId> := {};
      for i := 0 to |listed|
        invariant refunded + Refunded(listed[i..], source, seen) == Refunded(listed, source, {})
      {
        assert listed[i..][1..] == listed[i + 1..] && listed[i..][0] == listed[i];
        var t := listed[i];
        if t.req.purpose == Purpose.Refund && t.req.source == source && t.session !in seen {
          seen := seen + {t.session};
          if Good(t.status) { refunded := refunded + t.req.amount; }
        }
      }
    }

    method Refund(req: Request, listed: seq<Transfer>, env: Env) returns (reply: Option<Transfer>)
      requires Valid()
      modifies this, lc
      ensures Valid() && Durable() == RefundFor(old(Durable()), req, listed, env)
      ensures reply == RefundAnswer(old(Durable()), req, listed, env)
      // Value goes back to the account a successful payout brought it to, or nowhere.
      ensures !A.Refundable(old(Durable()), req, listed) ==> Durable() == old(Durable()) && reply == None
      ensures reply.Some? ==> A.PaidOutFor(old(Durable()), req.source) && reply.value.req == A.ToSource(old(Durable()), req)
      ensures old(K.Unused(Durable(), env.session) && K.Listing(Durable(), listed)) ==>
                forall mode: K.Mode :: !mode.Exact? && old(Lawful(mode) && (mode.Loose? || !K.AcceptedByWrap(Durable(), req, listed))) ==> Lawful(mode)
    {
      hide K.Inv, K.Unused, K.Listing, N.PayoutLocked, PayoutAnswer;
      A.RefundOutcome(Durable(), req, listed, env);
      if K.Unused(Durable(), env.session) && K.Listing(Durable(), listed) {
        forall mode: K.Mode | !mode.Exact? && Lawful(mode) && (mode.Loose? || !K.AcceptedByWrap(Durable(), req, listed))
          ensures K.Inv(RefundFor(Durable(), req, listed, env), mode)
        {
          K.RefundKeeps(Durable(), req, listed, env, mode);
        }
      }
      if req.source == "" || Sess(req.source) !in recs { return None; }
      var src := recs[Sess(req.source)];
      if src.req.purpose != Purpose.Payout || src.status != Success { return None; }
      if req.account != "" && req.account != src.req.account { return None; }
      if req.bank != "" && req.bank != src.req.bank { return None; }
      var refunded := RefundedSoFar(listed, req.source);
      if (refunded + req.amount) % UINT64 > src.req.amount { return None; }
      reply := PayoutLocked(req.(purpose := Purpose.Refund, account := src.req.account, bank := src.req.bank), env);
    }

    method Reversal(session: SessionId, env: Env) returns (ok: bool)
      requires Valid()
      modifies this`recs, this`rail
      ensures Valid() && Durable() == Reverse(old(Durable()), session, env)
      ensures ok == Unwound(old(Durable()), session, env)
      ensures forall mode: K.Mode :: !mode.Exact? && old(Lawful(mode)) ==> Lawful(mode)
    {
      hide K.Inv;
      forall mode: K.Mode | !mode.Exact? && Lawful(mode) ensures K.Inv(Reverse(Durable(), session, env), mode) {
        K.ReverseKeeps(Durable(), session, env, mode);
      }
      if Sess(session) !in recs { return false; }
      var t := recs[Sess(session)];
      if t.status == Reversed { return true; }
      if t.status == Success { return false; }
      var answer := AskRail(session, env.reversal(session));
      if answer.None? { return false; }
      StoreBoth(t.(status := answer.value), env.lost(session));
      ok := true;
    }

    method ResolveInFlight(t: Transfer, env: Env)
      requires Valid()
      modifies this`recs, this`rail, lc
      ensures Valid() && Durable() == Resolve(old(Durable()), t, env)
    {
      var answer := AskRail(t.session, env.tsq(t.session));
      if answer.None? { return; }
      if answer.value == Success {
        var ok := PostLedgerLeg(t);
        if ok { StoreBoth(t.(status := Success), env.lost(t.session)); }
      } else if answer.value == Failed {
        VoidLedgerLeg(t);
        var _ := Reversal(t.session, env);
      }
    }

    method SweepTSQ(listed: seq<Transfer>, env: Env)
      requires Valid()
      modifies this`recs, this`rail, lc
      ensures Valid() && Durable() == Sweep(old(Durable()), listed, env, {})
      ensures old(K.Listing(Durable(), listed)) ==> forall mode: K.Mode :: !mode.Exact? && old(Lawful(mode)) ==> Lawful(mode)
    {
      hide K.Inv, K.Listing, Resolve;
      if K.Listing(Durable(), listed) {
        forall mode: K.Mode | !mode.Exact? && Lawful(mode) ensures K.Inv(Sweep(Durable(), listed, env, {}), mode) {
          K.ListingKnown(Durable(), Durable(), listed, mode);
          K.SweepKeeps(Durable(), listed, env, {}, mode);
        }
      }
      var seen: set<SessionId> := {};
      for i := 0 to |listed|
        invariant Valid() && Sweep(Durable(), listed[i..], env, seen) == Sweep(old(Durable()), listed, env, {})
      {
        assert listed[i..][1..] == listed[i + 1..] && listed[i..][0] == listed[i];
        if listed[i].status == InFlight && listed[i].session !in seen {
          seen := seen + {listed[i].session};
          ResolveInFlight(listed[i], env);
        }
      }
    }

    method PurgeExpiredIdempotency(listed: seq<Transfer>, now: int)
      requires Valid()
      modifies this`recs
      ensures Valid() && Durable() == Purge(old(Durable()), listed, now)
      ensures forall mode: K.Mode :: !mode.Exact? && old(Lawful(mode)) ==> Lawful(mode)
    {
      hide K.Inv;
      forall mode: K.Mode | Lawful(mode) ensures K.Inv(Purge(Durable(), listed, now), mode) {
        K.PurgeKeeps(Durable(), listed, now, mode);
      }
      for i := 0 to |listed|
        invariant Valid() && Purge(Durable(), listed[i..], now) == Purge(old(Durable()), listed, now)
      {
        assert listed[i..][1..] == listed[i + 1..] && listed[i..][0] == listed[i];
        if Purged(listed[i], now) { recs := recs - {Idem(listed[i].req.key)}; }
      }
    }
  }
}
