/** What each NIP operation answers, dispatches and stores, said in terms of the request and the stored transfers. */
module NipAnswers {
  import opened Prelude
  import opened Ids
  import L = Ledger
  import opened LedgerLaws
  import opened Nip
  import opened NipLaws

  // ---------------------------------------------------------------- what a payout writes

  /** Only the two records of `t` may be new or changed, and then they carry its session, request and expiry. */
  ghost predicate WritesOnly(w: World, v: World, t: Transfer)
  {
    forall c :: c in v.recs && (c !in w.recs || v.recs[c] != w.recs[c]) ==>
      (c == Sess(t.session) || c == Idem(t.req.key)) && Same(v.recs[c], t)
  }

  /** No record vanished. */
  ghost predicate Grows(w: World, v: World)
  {
    forall c :: c in w.recs ==> c in v.recs
  }

  /** At most one dispatch was added, and then of this transfer. */
  predicate DispatchesOnly(w: World, v: World, t: Transfer, now: int)
  {
    v.log == w.log || v.log == Sent(w.log, Dispatch(t.session, t.req.key, now, t.expiresAt))
  }

  lemma {:induction false} PutWrites(w: World, u: World, c: Slot, z: Transfer, fault: bool, t: Transfer)
    requires WritesOnly(w, u, t) && Grows(w, u) && Same(z, t) && (c == Sess(t.session) || c == Idem(t.req.key))
    ensures WritesOnly(w, Put(u, c, z, fault), t) && Grows(w, Put(u, c, z, fault))
    ensures Put(u, c, z, fault).log == u.log
  {
  }

  lemma {:induction false} PutBothWrites(w: World, u: World, z: Transfer, lost: Slot -> bool, t: Transfer)
    requires WritesOnly(w, u, t) && Grows(w, u) && Same(z, t)
    ensures WritesOnly(w, PutBoth(u, z, lost), t) && Grows(w, PutBoth(u, z, lost))
    ensures PutBoth(u, z, lost).log == u.log
  {
    PutWrites(w, u, Sess(z.session), z, lost(Sess(z.session)), t);
    PutWrites(w, Put(u, Sess(z.session), z, lost(Sess(z.session))), Idem(z.req.key), z, lost(Idem(z.req.key)), t);
  }

  lemma {:induction false} ConcludeWrites(w: World, u: World, z: Transfer, env: Env, t: Transfer)
    requires WritesOnly(w, u, t) && Grows(w, u) && Same(z, t)
    ensures WritesOnly(w, Conclude(u, z, env), t) && Grows(w, Conclude(u, z, env)) && Conclude(u, z, env).log == u.log
  {
    hide L.Step, L.Post, WritesOnly, Grows;
    var x := match z.status case Success => PostLeg(u, z) case Failed => VoidLeg(u, z) case _ => u;
    assert WritesOnly(w, x, t) && Grows(w, x) by { LegWrites(w, u, x, t); }
    var lost := env.lost(z.session);
    PutWrites(w, x, Idem(z.req.key), z, lost(Idem(z.req.key)), t);
    PutWrites(w, Put(x, Idem(z.req.key), z, lost(Idem(z.req.key))), Sess(z.session), z, lost(Sess(z.session)), t);
  }

  lemma {:induction false} LegWrites(w: World, u: World, x: World, t: Transfer)
    requires WritesOnly(w, u, t) && Grows(w, u) && x.recs == u.recs
    ensures WritesOnly(w, x, t) && Grows(w, x)
  {
  }

  lemma {:induction false} FireWrites(w: World, u: World, z: Transfer, env: Env, t: Transfer)
    requires WritesOnly(w, u, t) && Grows(w, u) && Same(z, t) && u.log == w.log
    ensures var v := Fire(u, z, env);
            WritesOnly(w, v, t) && Grows(w, v) && DispatchesOnly(w, v, t, env.now)
  {
    hide Conclude, PutBoth, WritesOnly, Grows;
    var x := Send(u, z, env.now, env.dispatch);
    LegWrites(w, u, x, t);
    PutBothWrites(w, x, z, env.lost(z.session), t);
    ConcludeWrites(w, x, z.(status := SendAnswer(u, z, env.dispatch)), env, t);
  }

  lemma {:induction false} BeginWrites(w: World, t: Transfer, env: Env)
    ensures var v := Begin(w, t, env);
            WritesOnly(w, v, t) && Grows(w, v) && DispatchesOnly(w, v, t, env.now)
  {
    assert WritesOnly(w, w, t) && Grows(w, w);
    hide L.Step, L.Hold, WritesOnly, Grows, Fire, PutBoth;
    var w1 := Put(w, Idem(t.req.key), t, env.idemFault);
    PutWrites(w, w, Idem(t.req.key), t, env.idemFault, t);
    var w2 := Put(w1, Sess(t.session), t, env.sessFault);
    PutWrites(w, w1, Sess(t.session), t, env.sessFault, t);
    var w3 := Do(Do(w2, OpenAccount(Collections)), OpenAccount(NipClearing));
    LegWrites(w, w2, w3, t);
    var w4, u := Do(w3, L.DoHold(NipLeg(t.session), LegTransfer(t))), t.(legged := true);
    LegWrites(w, w3, w4, t);
    PutBothWrites(w, w4, u, env.markLost, t);
    FireWrites(w, PutBoth(w4, u, env.markLost), u, env, t);
  }

  // ---------------------------------------------------------------- payout

  /** A key whose window is open is answered from its record and nothing is sent. */
  predicate InWindow(w: World, key: string, now: int)
  {
    Idem(key) in w.recs && now <= w.recs[Idem(key)].expiresAt
  }

  predicate WellFormed(req: Request)
  {
    req.amount > 0 && req.account != "" && req.bank != "" && req.key != ""
  }

  /** A payout that was named an account the bank does not confirm, is malformed, or repeats a key in its window, moves nothing. */
  lemma {:induction false} PayoutIdle(w: World, req: Request, env: Env)
    requires !WellFormed(req) || InWindow(w, req.key, env.now) || !env.verified
    ensures PayoutLocked(w, req, env) == w
    ensures PayoutAnswer(w, req, env)
         == if WellFormed(req) && InWindow(w, req.key, env.now) && w.recs[Idem(req.key)].req == req
            then Some(w.recs[Idem(req.key)]) else None
  {
  }

  /** Every other payout is recorded under a new session that expires in seven days. */
  lemma {:induction false} PayoutStarts(w: World, req: Request, env: Env)
    requires WellFormed(req) && !InWindow(w, req.key, env.now) && env.verified && w.life == Forever
    ensures var t, v := Transfer(env.session, req, InFlight, false, env.now + 604800), PayoutLocked(w, req, env);
            && WritesOnly(w, v, t) && Grows(w, v) && DispatchesOnly(w, v, t, env.now)
            && (env.idemFault ==> v.recs == w.recs)
            && (!env.idemFault ==> Idem(req.key) in v.recs && Same(v.recs[Idem(req.key)], t))
            && (!env.idemFault && env.sessFault ==> v == w.(recs := w.recs[Idem(req.key) := t]))
            && (env.idemFault || env.sessFault ==> PayoutAnswer(w, req, env) == None && v.log == w.log && v.books == w.books)
  {
    var t := Transfer(env.session, req, InFlight, false, env.now + 604800);
    assert t == NewTransfer(req, env);
    BeginWrites(w, t, env);
    if !env.idemFault {
      BeginWrites(w, t, env);
      var w1 := Put(w, Idem(t.req.key), t, false);
      var w2 := Put(w1, Sess(t.session), t, env.sessFault);
      hide PlaceLeg, PlaceAnswer;
      if !env.sessFault { PlaceKeepsKey(w2, t, env); }
    }
  }

  /** From the record on, the key's record stays one of this transfer. */
  lemma {:induction false} PlaceKeepsKey(w: World, t: Transfer, env: Env)
    requires Idem(t.req.key) in w.recs && Same(w.recs[Idem(t.req.key)], t)
    ensures var v := PlaceLeg(w, t, env);
            Idem(t.req.key) in v.recs && Same(v.recs[Idem(t.req.key)], t)
  {
    assert WritesOnly(w, w, t) && Grows(w, w);
    hide L.Step, L.Hold, Fire, PutBoth;
    var w3 := Do(Do(w, OpenAccount(Collections)), OpenAccount(NipClearing));
    var w4, u := Do(w3, L.DoHold(NipLeg(t.session), LegTransfer(t))), t.(legged := true);
    PutBothWrites(w, w4, u, env.markLost, t);
    var w5 := PutBoth(w4, u, env.markLost);
    assert PutBoth(w4, u, env.markLost).log == w.log;
    FireWrites(w, w5, u, env, t);
  }

  /**
   The outcome goes to the key's record first: when that write is lost the session's record is not touched, and when
   either is lost the caller gets an error. A success whose leg cannot be posted is recorded nowhere.
   */
  lemma {:induction false} OutcomeStored(w: World, t: Transfer, env: Env)
    requires w.life == Forever
    ensures var v, answer, lost := Conclude(w, t, env), ConcludeAnswer(w, t, env), env.lost(t.session);
            var refused := t.status == Success && t.legged && L.Post(w.books, NipLeg(t.session), NipPost(t.session), t.req.amount).1.Err?;
            && v.recs == (if refused || lost(Idem(t.req.key)) then w.recs
                          else if lost(Sess(t.session)) then w.recs[Idem(t.req.key) := t]
                          else w.recs[Idem(t.req.key) := t][Sess(t.session) := t])
            && (answer == if refused || lost(Idem(t.req.key)) || lost(Sess(t.session)) then None else Some(t))
            && v.rail == w.rail && v.log == w.log
  {
    hide L.Post, L.Void;
  }

  /** A dispatch whose answer is not heard stays in flight under both slots, its leg untouched, and is answered as it is. */
  lemma {:induction false} UnheardStaysInFlight(w: World, t: Transfer, env: Env)
    requires w.life == Forever && t.status == InFlight && !env.dispatch.Heard? && Lossless(env)
    ensures var v := Fire(w, t, env);
            && v.recs == w.recs[Sess(t.session) := t][Idem(t.req.key) := t] && v.books == w.books
            && v.log == Sent(w.log, Dispatch(t.session, t.req.key, env.now, t.expiresAt))
            && FireAnswer(w, t, env) == Some(t)
  {
  }

  /** Whatever is answered carries the request it answers. */
  lemma {:induction false} AnswerIsForRequest(w: World, req: Request, env: Env)
    ensures PayoutAnswer(w, req, env).Some? ==> PayoutAnswer(w, req, env).value.req == req
  {
    hide L.Step, L.Hold, L.Post;
  }

  // ---------------------------------------------------------------- refund

  /** The stored transfer a refund names is a payout the rail carried out. */
  predicate PaidOutFor(w: World, source: SessionId)
  {
    && source != "" && Sess(source) in w.recs
    && w.recs[Sess(source)].req.purpose == Payout && w.recs[Sess(source)].status == Success
  }

  /** The caller leaves the destination open or names the payout's own. */
  predicate SameDestination(req: Request, paid: Request)
  {
    (req.account == "" || req.account == paid.account) && (req.bank == "" || req.bank == paid.bank)
  }

  predicate Refundable(w: World, req: Request, listed: seq<Transfer>)
  {
    && PaidOutFor(w, req.source) && SameDestination(req, w.recs[Sess(req.source)].req)
    && (Refunded(listed, req.source, {}) + req.amount) % UINT64 <= w.recs[Sess(req.source)].req.amount
  }

  /** The request with the payout's own account and bank, whatever the caller named. */
  function ToSource(w: World, req: Request): Request
    requires PaidOutFor(w, req.source)
  {
    var paid := w.recs[Sess(req.source)].req;
    Request(Refund, req.key, req.amount, paid.account, paid.bank, req.narration, req.source)
  }

  /**
   A refund either is refused and changes nothing, or is a payout of the named amount to exactly the account and bank
   of a stored, successful payout; what is answered, stored and dispatched carries that destination.
   */
  lemma {:induction false} RefundOutcome(w: World, req: Request, listed: seq<Transfer>, env: Env)
    ensures var v, answer := RefundFor(w, req, listed, env), RefundAnswer(w, req, listed, env);
            if !Refundable(w, req, listed) then v == w && answer == None
            else
              var bound := ToSource(w, req);
              && v == PayoutLocked(w, bound, env) && answer == PayoutAnswer(w, bound, env)
              && (answer.Some? ==> answer.value.req == bound)
              && WritesOnly(w, v, Transfer(env.session, bound, InFlight, false, env.now + 604800))
              && DispatchesOnly(w, v, Transfer(env.session, bound, InFlight, false, env.now + 604800), env.now)
  {
    hide PayoutLocked, PayoutAnswer, BoundRequest, Refundable, Begin, WritesOnly, DispatchesOnly;
    BoundToSource(w, req, listed);
    if Refundable(w, req, listed) {
      var bound := ToSource(w, req);
      AnswerIsForRequest(w, bound, env);
      PayoutWrites(w, bound, env);
    }
  }

  lemma {:induction false} BoundToSource(w: World, req: Request, listed: seq<Transfer>)
    ensures Refundable(w, req, listed) ==> PaidOutFor(w, req.source)
    ensures BoundRequest(w, req, listed) == if Refundable(w, req, listed) then Some(ToSource(w, req)) else None
  {
  }

  /** A payout writes and dispatches only its own new transfer. */
  lemma {:induction false} PayoutWrites(w: World, req: Request, env: Env)
    ensures var t, v := Transfer(env.session, req, InFlight, false, env.now + 604800), PayoutLocked(w, req, env);
            WritesOnly(w, v, t) && DispatchesOnly(w, v, t, env.now)
  {
    hide Begin;
    PayoutUnfolds(w, req, env);
    BeginWrites(w, NewTransfer(req, env), env);
  }

  /** A refund that names another account or bank than the payout's is refused. */
  lemma {:induction false} OtherDestinationRefused(w: World, req: Request, listed: seq<Transfer>, env: Env)
    requires req.source != "" && Sess(req.source) in w.recs
    requires || (req.account != "" && req.account != w.recs[Sess(req.source)].req.account)
             || (req.bank != "" && req.bank != w.recs[Sess(req.source)].req.bank)
    ensures RefundFor(w, req, listed, env) == w && RefundAnswer(w, req, listed, env) == None
  {
    RefundOutcome(w, req, listed, env);
  }

  // ---------------------------------------------------------------- refunds over runs

  /** No session record vanishes or changes its identity. */
  ghost predicate Persists(w: World, v: World)
  {
    forall r :: Sess(r) in w.recs ==> Sess(r) in v.recs && Same(w.recs[Sess(r)], v.recs[Sess(r)])
  }

  lemma {:induction false} FramePersists(w: World, v: World)
    requires Frame(w, v)
    ensures Persists(w, v)
  {
  }

  lemma {:induction false} PersistsThen(u: World, v: World, w: World)
    requires Persists(u, v) && Persists(v, w)
    ensures Persists(u, w)
  {
  }

  lemma {:induction false} PayoutPersists(w: World, req: Request, env: Env)
    requires Inv(w, Loose) && Unused(w, env.session)
    ensures Persists(w, PayoutLocked(w, req, env))
  {
    PayoutUnfolds(w, req, env);
    var t := NewTransfer(req, env);
    BeginWrites(w, t, env);
    assert RecAt(w, Sess(env.session), Loose);
    hide Inv;
  }

  lemma {:induction false} SweepPersists(w: World, listed: seq<Transfer>, env: Env, seen: set<SessionId>)
    requires Inv(w, Loose) && AllKnown(w, listed)
    ensures Persists(w, Sweep(w, listed, env, seen))
    decreases |listed|
  {
    hide Inv, Resolve, Known;
    if listed != [] {
      var rest := listed[1..];
      if listed[0].status != InFlight || listed[0].session in seen {
        assert AllKnown(w, rest);
        SweepPersists(w, rest, env, seen);
      } else {
        var w1 := Resolve(w, listed[0], env);
        ResolveKeeps(w, listed[0], env, Loose);
        forall i | 0 <= i < |rest| ensures Known(w1, rest[i]) { KnownLater(w, w1, listed[i + 1]); }
        FramePersists(w, w1);
        SweepPersists(w1, rest, env, seen + {listed[0].session});
        PersistsThen(w, w1, Sweep(w1, rest, env, seen + {listed[0].session}));
      }
    }
  }

  lemma {:induction false} PurgePersists(w: World, listed: seq<Transfer>, now: int)
    ensures Persists(w, Purge(w, listed, now))
    decreases |listed|
  {
    if listed != [] {
      var w1 := if Purged(listed[0], now) then Delete(w, Idem(listed[0].req.key)) else w;
      PurgePersists(w1, listed[1..], now);
      PersistsThen(w, w1, Purge(w1, listed[1..], now));
    }
  }

  lemma {:induction false} StepPersists(w: World, c: Call)
    requires Inv(w, Loose) && Admissible(w, c.op)
    ensures Persists(w, Step(w, c.op, c.life))
  {
    var v := w.(clock := TimeOf(w, c.op), life := c.life);
    LifeKeeps(w, c.life, TimeOf(w, c.op), Loose);
    match c.op
    case DoPayout(req, env) => PayoutPersists(v, req, env);
    case DoRefund(req, listed, env) =>
      RefundOutcome(v, req, listed, env);
      if Refundable(v, req, listed) { PayoutPersists(v, ToSource(v, req), env); }
    case DoReversal(session, env) =>
      ReverseKeeps(v, session, env, Loose);
      FramePersists(v, Reverse(v, session, env));
    case DoSweep(listed, env) =>
      ListingKnown(w, v, listed, Loose);
      SweepPersists(v, listed, env, {});
    case DoPurge(listed, now) => PurgePersists(v, listed, now);
    case DoElsewhere(op) =>
  }

  /** Cutting an admissible run short leaves an admissible run. */
  lemma {:induction false} RunPrefix(calls: seq<Call>, k: nat)
    requires AdmissibleRun(START, calls) && k <= |calls|
    ensures AdmissibleRun(START, calls[..k])
  {
    if k == |calls| {
      assert calls[..k] == calls;
    } else {
      RunPrefix(calls[..|calls| - 1], k);
      assert calls[..|calls| - 1][..k] == calls[..k];
    }
  }

  lemma {:induction false} RunPersists(calls: seq<Call>, k: nat)
    requires AdmissibleRun(START, calls) && k <= |calls|
    ensures Persists(Run(START, calls[..k]), Run(START, calls))
  {
    if k == |calls| {
      assert calls[..k] == calls;
    } else {
      hide Inv, Step;
      var n := |calls| - 1;
      RunPersists(calls[..n], k);
      assert calls[..n][..k] == calls[..k];
      RunKeepsInv(calls[..n], Loose);
      StepPersists(Run(START, calls[..n]), calls[n]);
      PersistsThen(Run(START, calls[..k]), Run(START, calls[..n]), Run(START, calls));
    }
  }

  /**
   In every run, with crashes and lost writes anywhere: a session that a call of Refund stored is, then and ever after,
   a refund to exactly the account and bank of its stored payout, for the requested amount.
   */
  lemma {:induction false} RefundsReturnToSource(calls: seq<Call>, k: nat)
    requires AdmissibleRun(START, calls) && k < |calls| && calls[k].op.DoRefund?
    requires Sess(calls[k].op.env.session) in Run(START, calls[..k + 1]).recs
    ensures var w, r := Run(START, calls), calls[k].op.env.session;
            && Sess(r) in w.recs && w.recs[Sess(r)].session == r
            && var t, source := w.recs[Sess(r)].req, calls[k].op.req.source;
               && t.purpose == Refund && t.source == source && t.amount == calls[k].op.req.amount
               && Sess(source) in w.recs && w.recs[Sess(source)].req.purpose == Payout
               && t.account == w.recs[Sess(source)].req.account && t.bank == w.recs[Sess(source)].req.bank
  {
    hide Inv, PayoutLocked, Refundable;
    var u, op := Run(START, calls[..k]), calls[k].op;
    RunPrefix(calls, k);
    RunPrefix(calls, k + 1);
    assert calls[..k + 1][..k] == calls[..k];
    RunKeepsInv(calls[..k], Loose);
    RunPersists(calls, k + 1);
    RunPersists(calls, k);
    var v := u.(clock := TimeOf(u, op), life := calls[k].life);
    UnusedSession(u, op.env.session);
    RefundOutcome(v, op.req, op.listed, op.env);
    assert Run(START, calls[..k + 1]) == RefundFor(v, op.req, op.listed, op.env);
    RefundablePaid(v, op.req, op.listed);
  }

  lemma {:induction false} RefundablePaid(w: World, req: Request, listed: seq<Transfer>)
    ensures Refundable(w, req, listed) ==> PaidOutFor(w, req.source)
  {
  }

  lemma {:induction false} UnusedSession(w: World, r: SessionId)
    requires Inv(w, Loose) && Unused(w, r)
    ensures Sess(r) !in w.recs
  {
    assert RecAt(w, Sess(r), Loose);
  }

  // ---------------------------------------------------------------- the refund history

  /** A copy of a refund of this payout. */
  predicate RefundOf(t: Transfer, source: SessionId)
  {
    t.req.purpose == Refund && t.req.source == source
  }

  /** An earlier copy of the same refund is listed. */
  predicate CountedBefore(listed: seq<Transfer>, source: SessionId, r: SessionId)
  {
    exists i :: 0 <= i < |listed| && RefundOf(listed[i], source) && listed[i].session == r
  }

  /** A listed transfer adds its amount exactly when it is a refund of the payout, in flight or successful, not listed before. */
  lemma {:induction false} RefundedGrows(listed: seq<Transfer>, t: Transfer, source: SessionId, seen: set<SessionId>)
    ensures Refunded([], source, seen) == 0
    ensures Refunded(listed + [t], source, seen)
         == Refunded(listed, source, seen)
          + if RefundOf(t, source) && t.session !in seen && !CountedBefore(listed, source, t.session)
               && (t.status == InFlight || t.status == Success) then t.req.amount else 0
  {
    if listed == [] {
      assert (listed + [t])[1..] == [];
    } else {
      var u := listed[0];
      assert (listed + [t])[1..] == listed[1..] + [t];
      CountedRestBefore(listed, source, t.session);
      if RefundOf(u, source) && u.session !in seen {
        RefundedGrows(listed[1..], t, source, seen + {u.session});
      } else {
        RefundedGrows(listed[1..], t, source, seen);
      }
    }
  }

  lemma {:induction false} CountedRestBefore(listed: seq<Transfer>, source: SessionId, r: SessionId)
    requires listed != []
    ensures CountedBefore(listed, source, r)
       <==> (RefundOf(listed[0], source) && listed[0].session == r) || CountedBefore(listed[1..], source, r)
  {
    if i :| 0 <= i < |listed| && RefundOf(listed[i], source) && listed[i].session == r {
      if i > 0 { assert listed[1..][i - 1] == listed[i]; }
    }
    if i :| 0 <= i < |listed[1..]| && RefundOf(listed[1..][i], source) && listed[1..][i].session == r {
      assert listed[i + 1] == listed[1..][i];
    }
  }

  // ---------------------------------------------------------------- reversal, sweep, purge

  /** What the rail says of a session: unknown ones count as failed, open ones are decided now, decided ones stay. */
  predicate RailSays(before: map<SessionId, Status>, session: SessionId, choice: Status, answer: Status)
  {
    if session !in before then answer == Failed
    else
      match before[session]
      case InFlight => answer == choice
      case Failed => answer == (if choice == Reversed then Reversed else Failed)
      case Success => answer == Success
      case Reversed => answer == Reversed
  }

  /** A transfer that is neither settled nor reversed is put to the rail, and both records take the rail's answer. */
  lemma {:induction false} ReversalOutcome(w: World, session: SessionId, env: Env)
    requires w.life == Forever && Lossless(env)
    requires Sess(session) in w.recs ==> w.recs[Sess(session)].session == session
    ensures var v, reply := Reverse(w, session, env), env.reversal(session);
            if Sess(session) !in w.recs || w.recs[Sess(session)].status == Success then v == w && !Unwound(w, session, env)
            else if w.recs[Sess(session)].status == Reversed then v == w && Unwound(w, session, env)
            else if reply.NotReceived? then v == w && !Unwound(w, session, env)
            else
              && session in v.rail && RailSays(w.rail, session, reply.choice, v.rail[session])
              && (var z := w.recs[Sess(session)].(status := v.rail[session]);
                  v == w.(rail := w.rail[session := z.status],
                          recs := if reply.Heard? then w.recs[Sess(session) := z][Idem(z.req.key) := z] else w.recs))
              && (Unwound(w, session, env) <==> reply.Heard?)
  {
  }

  /** The earlier rows of a sweep's listing already dealt with the session. */
  predicate SweptBefore(listed: seq<Transfer>, r: SessionId)
  {
    exists i :: 0 <= i < |listed| && listed[i].session == r && listed[i].status == InFlight
  }

  /** The sweep asks about each session once, at its first copy that is in flight, and about no other. */
  lemma {:induction false} SweepGrows(w: World, listed: seq<Transfer>, t: Transfer, env: Env, seen: set<SessionId>)
    ensures Sweep(w, [], env, seen) == w
    ensures var u := Sweep(w, listed, env, seen);
            Sweep(w, listed + [t], env, seen)
            == if t.status == InFlight && t.session !in seen && !SweptBefore(listed, t.session) then Resolve(u, t, env) else u
    decreases |listed|
  {
    hide Resolve;
    if listed == [] {
      assert (listed + [t])[1..] == [];
      assert Sweep(w, [t], env, seen)
          == if t.status != InFlight || t.session in seen then w else Sweep(Resolve(w, t, env), [t][1..], env, seen + {t.session});
    } else {
      var u, rest := listed[0], listed[1..];
      assert (listed + [t])[1..] == rest + [t] && (listed + [t])[0] == u;
      SweptRest(listed, t.session);
      if u.status != InFlight || u.session in seen {
        SweepGrows(w, rest, t, env, seen);
      } else {
        SweepGrows(Resolve(w, u, env), rest, t, env, seen + {u.session});
      }
    }
  }

  lemma {:induction false} SweptRest(listed: seq<Transfer>, r: SessionId)
    requires listed != []
    ensures SweptBefore(listed, r) <==> (listed[0].session == r && listed[0].status == InFlight) || SweptBefore(listed[1..], r)
  {
    if i :| 0 <= i < |listed| && listed[i].session == r && listed[i].status == InFlight {
      if i > 0 { assert listed[1..][i - 1] == listed[i]; }
    }
    if i :| 0 <= i < |listed[1..]| && listed[1..][i].session == r && listed[1..][i].status == InFlight {
      assert listed[i + 1] == listed[1..][i];
    }
  }

  /** A listed transfer that ended and whose seven days are over. */
  predicate Dropped(listed: seq<Transfer>, key: string, now: int)
  {
    exists i :: 0 <= i < |listed| && listed[i].req.key == key && now > listed[i].expiresAt && listed[i].status != InFlight
  }

  /** The purge drops exactly the key records of transfers that ended and expired, and nothing else. */
  lemma {:induction false} PurgeOutcome(w: World, listed: seq<Transfer>, now: int)
    requires w.life == Forever
    ensures var v := Purge(w, listed, now);
            && v == w.(recs := v.recs)
            && forall c :: (c in v.recs <==> c in w.recs && !(c.Idem? && c.key != "" && Dropped(listed, c.key, now)))
                           && (c in v.recs ==> v.recs[c] == w.recs[c])
    decreases |listed|
  {
    if listed != [] {
      var t, rest := listed[0], listed[1..];
      var w1 := if Purged(t, now) then Delete(w, Idem(t.req.key)) else w;
      PurgeOutcome(w1, rest, now);
      forall k ensures Dropped(listed, k, now) <==> (t.req.key == k && now > t.expiresAt && t.status != InFlight) || Dropped(rest, k, now) {
        DroppedRest(listed, k, now);
      }
    }
  }

  lemma {:induction false} DroppedRest(listed: seq<Transfer>, k: string, now: int)
    requires listed != []
    ensures Dropped(listed, k, now)
       <==> (listed[0].req.key == k && now > listed[0].expiresAt && listed[0].status != InFlight) || Dropped(listed[1..], k, now)
  {
    if i :| 0 <= i < |listed| && listed[i].req.key == k && now > listed[i].expiresAt && listed[i].status != InFlight {
      if i > 0 { assert listed[1..][i - 1] == listed[i]; }
    }
    if i :| 0 <= i < |listed[1..]| && listed[1..][i].req.key == k && now > listed[1..][i].expiresAt && listed[1..][i].status != InFlight {
      assert listed[i + 1] == listed[1..][i];
    }
  }

  // ---------------------------------------------------------------- the leg of a transfer

  /** In every reachable state the leg of a transfer, and its post, move the requested amount from collections to clearing. */
  lemma {:induction false} LegsRecorded(calls: seq<Call>, r: SessionId)
    requires AdmissibleRun(START, calls)
    ensures var w := Run(START, calls);
            var m := w.books.transfers;
            && (NipLeg(r) in m ==>
                  && Sess(r) in w.recs
                  && m[NipLeg(r)].(pending := true) == L.Transfer(Collections, NipClearing, 200, 6, w.recs[Sess(r)].req.amount, true))
            && (NipPost(r) in m ==>
                  && Sess(r) in w.recs
                  && m[NipPost(r)] == L.Transfer(Collections, NipClearing, 200, 6, w.recs[Sess(r)].req.amount, false))
  {
    hide Run, AdmissibleRun;
    RunKeepsInv(calls, Loose);
    assert LegAt(Run(START, calls), r);
    hide Inv;
  }
}
