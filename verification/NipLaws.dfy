/** What every run of payouts, refunds, reversals, sweeps and purges keeps, with crashes anywhere. */
module NipLaws {
  import opened Prelude
  import opened Ids
  import L = Ledger
  import opened LedgerLaws
  import opened Nip

  // ---------------------------------------------------------------- invariant

  function SentCount(log: Dispatches, r: SessionId): nat
  {
    match log
    case Unsent => 0
    case Sent(past, d) => SentCount(past, r) + if d.session == r then 1 else 0
  }

  /** Copies of one transfer: everything but the status and the leg mark agrees. */
  predicate Same(t: Transfer, u: Transfer)
  {
    t.session == u.session && t.req == u.req && t.expiresAt == u.expiresAt
  }

  /** The rail has finally not moved the money. */
  predicate Dead(rail: map<SessionId, Status>, r: SessionId)
  {
    r in rail && !Good(rail[r])
  }

  /** A final status in a record is the rail's. */
  predicate StatusTrue(rail: map<SessionId, Status>, t: Transfer)
  {
    && (t.status == Success ==> t.session in rail && rail[t.session] == Success)
    && (!Good(t.status) ==> Dead(rail, t.session))
  }

  /**
   What the invariant says about refunds: nothing, that those the rail executed or may
   execute are within their payout, or, in runs without crashes and lost writes, that
   those recorded as good are.
   */
  datatype Mode = Loose | Bound | Exact

  /**
   What a stored copy guarantees. In an `Exact` run (no crash, no lost write) a
   transfer in flight or successful under its session is so in every copy.
   */
  ghost predicate RecAt(w: World, c: Slot, mode: Mode)
  {
    c in w.recs ==>
      var t := w.recs[c];
      && (c == Sess(t.session) || c == Idem(t.req.key))
      && (Sess(t.session) in w.recs ==> Same(w.recs[Sess(t.session)], t))
      && StatusTrue(w.rail, t)
      && (t.legged ==> NipLeg(t.session) in w.books.transfers)
      && (mode.Exact? && Sess(t.session) in w.recs && Good(w.recs[Sess(t.session)].status) ==> Good(t.status))
  }

  /** The clearing leg of a session was posted: once, in full, after the rail reported success. */
  ghost predicate LegPosted(w: World, r: SessionId)
  {
    && Sess(r) in w.recs && NipLeg(r) in w.books.transfers && NipPost(r) in w.books.transfers
    && r in w.rail && w.rail[r] == Success
    && !w.books.transfers[NipLeg(r)].pending
    && w.books.transfers[NipPost(r)] == LegTransfer(w.recs[Sess(r)]).(pending := false)
    && Moves(w.books.journal, NipPost(r)) == 1
    && AmountMoved(w.books.journal, NipPost(r)) == w.recs[Sess(r)].req.amount
    && Logged(w.books.journal, L.Moved(NipPost(r), NipLeg(r), Collections, NipClearing, w.recs[Sess(r)].req.amount))
  }

  /** Record before leg, leg before dispatch, dispatch before any outcome, success before the post. */
  ghost predicate LegAt(w: World, r: SessionId)
  {
    && (NipLeg(r) in w.books.transfers ==>
          Sess(r) in w.recs && w.books.transfers[NipLeg(r)].(pending := true) == LegTransfer(w.recs[Sess(r)]))
    && (NipPost(r) in w.books.transfers ==> LegPosted(w, r))
    && SentCount(w.log, r) <= 1
    && (SentCount(w.log, r) == 1 ==> NipLeg(r) in w.books.transfers)
    && (r in w.rail && Good(w.rail[r]) ==> SentCount(w.log, r) == 1)
  }

  /** What a stored refund weighs against its source: by its record when `Exact`, by the rail otherwise. */
  ghost function Weight(rail: map<SessionId, Status>, source: SessionId, mode: Mode): (Slot, Transfer) -> int
  {
    (c: Slot, t: Transfer) =>
      if c.Sess? && t.req.purpose == Refund && t.req.source == source
         && (if mode.Exact? then Good(t.status) else !Dead(rail, t.session))
      then t.req.amount else 0
  }

  ghost function Outstanding(w: World, source: SessionId, mode: Mode): int
  {
    SumMap(w.recs, Weight(w.rail, source, mode))
  }

  ghost predicate CapAt(w: World, s: SessionId, mode: Mode)
  {
    !mode.Loose? && PaidOut(w, s) ==> Outstanding(w, s, mode) <= w.recs[Sess(s)].req.amount
  }

  ghost predicate Inv(w: World, mode: Mode)
  {
    && WellKept(w.books)
    && (forall c :: RecAt(w, c, mode))
    && (forall r :: LegAt(w, r))
    && (forall s :: CapAt(w, s, mode))
  }

  /** From `w` to `v` no session record appeared, vanished or changed identity, and no ledger record vanished. */
  ghost predicate Frame(w: World, v: World)
  {
    && (forall r :: Sess(r) in w.recs <==> Sess(r) in v.recs)
    && (forall r :: Sess(r) in w.recs ==> Same(w.recs[Sess(r)], v.recs[Sess(r)]))
    && (forall id :: id in w.books.transfers ==> id in v.books.transfers)
  }

  // ---------------------------------------------------------------- sums

  /** A rail that only kills sessions only lightens refunds. */
  lemma {:induction false} RailLightens(w: World, rail: map<SessionId, Status>, s: SessionId, mode: Mode)
    requires forall r :: Dead(w.rail, r) ==> Dead(rail, r)
    ensures Outstanding(w.(rail := rail), s, mode) <= Outstanding(w, s, mode)
  {
    var f, g := Weight(rail, s, mode), Weight(w.rail, s, mode);
    forall c | c in w.recs ensures f(c, w.recs[c]) <= g(c, w.recs[c]) {
      assert Dead(w.rail, w.recs[c].session) ==> Dead(rail, w.recs[c].session);
    }
    SumMapMono(w.recs, f, g);
  }

  // ---------------------------------------------------------------- writes

  /** The session is a stored payout. */
  predicate PaidOut(w: World, s: SessionId)
  {
    Sess(s) in w.recs && w.recs[Sess(s)].req.purpose == Payout
  }

  /** The payout of a refund, if it names one, has room for it. */
  ghost predicate Room(w: World, t: Transfer, mode: Mode)
  {
    !mode.Loose? && t.req.purpose == Refund && PaidOut(w, t.req.source) ==>
      Outstanding(w, t.req.source, mode) + t.req.amount <= w.recs[Sess(t.req.source)].req.amount
  }

  /** No stored refund names the session. */
  ghost predicate Unbound(w: World, r: SessionId)
  {
    forall c :: c in w.recs && w.recs[c].req.purpose == Refund ==> w.recs[c].req.source != r
  }

  ghost predicate CopiesOf(w: World, t: Transfer)
  {
    forall d :: d in w.recs && w.recs[d].session == t.session ==> Same(w.recs[d], t)
  }

  ghost predicate CopiesGood(w: World, r: SessionId)
  {
    forall d :: d in w.recs && w.recs[d].session == r ==> Good(w.recs[d].status)
  }

  ghost predicate Writable(w: World, c: Slot, t: Transfer, mode: Mode)
  {
    && (c == Sess(t.session) || c == Idem(t.req.key))
    && CopiesOf(w, t) && StatusTrue(w.rail, t)
    && (t.legged ==> NipLeg(t.session) in w.books.transfers)
    && (c.Idem? && mode.Exact? && Sess(t.session) in w.recs && Good(w.recs[Sess(t.session)].status) ==> Good(t.status))
    && (c.Sess? && mode.Exact? && Good(t.status) ==> CopiesGood(w, t.session))
    && (c.Sess? && c !in w.recs ==> Room(w, t, mode) && (t.req.purpose == Payout ==> Unbound(w, t.session)))
  }

  lemma {:induction false} WriteRec(w: World, c: Slot, t: Transfer, mode: Mode, d: Slot)
    requires RecAt(w, d, mode) && RecAt(w, Sess(t.session), mode) && Writable(w, c, t, mode)
    ensures RecAt(w.(recs := w.recs[c := t]), d, mode)
  {
  }

  lemma {:induction false} WriteLeg(w: World, c: Slot, t: Transfer, mode: Mode, r: SessionId)
    requires LegAt(w, r) && Writable(w, c, t, mode)
    requires c in w.recs ==> RecAt(w, c, mode)
    ensures LegAt(w.(recs := w.recs[c := t]), r)
  {
  }

  /** A session no refund names has no refunds. */
  lemma {:induction false} NoSourceNoRefunds(w: World, r: SessionId, mode: Mode)
    requires Unbound(w, r)
    ensures Outstanding(w, r, mode) == 0
  {
    SumMapZero(w.recs, Weight(w.rail, r, mode));
  }

  lemma {:induction false} WriteCap(w: World, c: Slot, t: Transfer, mode: Mode, s: SessionId)
    requires (forall d :: RecAt(w, d, mode)) && CapAt(w, s, mode) && Writable(w, c, t, mode)
    ensures CapAt(w.(recs := w.recs[c := t]), s, mode)
  {
    SumMapUpdate(w.recs, Weight(w.rail, s, mode), c, t);
    assert RecAt(w, c, mode);
    if c == Sess(s) && Sess(s) !in w.recs && t.req.purpose == Payout { NoSourceNoRefunds(w, s, mode); }
  }

  lemma {:induction false} PutKeeps(w: World, c: Slot, t: Transfer, fault: bool, mode: Mode)
    requires Inv(w, mode) && (w.life != For(0) && !fault ==> Writable(w, c, t, mode))
    ensures Inv(Put(w, c, t, fault), mode)
  {
    var v := Put(w, c, t, fault);
    var written := w.(recs := w.recs[c := t]);
    forall d ensures RecAt(v, d, mode) {
      assert RecAt(w, d, mode) && RecAt(w, Sess(t.session), mode);
      if w.life != For(0) && !fault { WriteRec(w, c, t, mode, d); assert RecAt(written, d, mode); }
    }
    forall r ensures LegAt(v, r) {
      assert LegAt(w, r) && RecAt(w, c, mode);
      if w.life != For(0) && !fault { WriteLeg(w, c, t, mode, r); assert LegAt(written, r); }
    }
    forall s ensures CapAt(v, s, mode) {
      assert CapAt(w, s, mode);
      if w.life != For(0) && !fault { WriteCap(w, c, t, mode, s); assert CapAt(written, s, mode); }
    }
  }

  lemma {:induction false} DeleteKeeps(w: World, key: string, mode: Mode)
    requires Inv(w, mode)
    ensures Inv(Delete(w, Idem(key)), mode) && Frame(w, Delete(w, Idem(key)))
  {
    var v := Delete(w, Idem(key));
    forall c ensures RecAt(v, c, mode) { assert RecAt(w, c, mode); }
    forall r ensures LegAt(v, r) { assert LegAt(w, r); }
    forall s ensures CapAt(v, s, mode) {
      assert CapAt(w, s, mode);
      var f := Weight(w.rail, s, mode);
      if Idem(key) in w.recs { SumMapPick(w.recs, f, Idem(key)); } else { assert w.recs - {Idem(key)} == w.recs; }
    }
  }

  // ---------------------------------------------------------------- rail calls

  /** The rail moved on at session `r` only: a final outcome stays, and nothing becomes good that was not sent. */
  ghost predicate RailMoved(w: World, v: World, r: SessionId)
  {
    && v.recs == w.recs && v.books == w.books
    && (forall q :: q != r ==> (q in v.rail <==> q in w.rail) && SentCount(v.log, q) == SentCount(w.log, q))
    && (forall q :: q != r && q in w.rail ==> v.rail[q] == w.rail[q])
    && (Dead(w.rail, r) ==> Dead(v.rail, r))
    && (r in w.rail && w.rail[r] == Success ==> r in v.rail && v.rail[r] == Success)
  }

  lemma {:induction false} RailKeeps(w: World, v: World, r: SessionId, mode: Mode)
    requires Inv(w, mode) && RailMoved(w, v, r) && LegAt(v, r)
    ensures Inv(v, mode) && Frame(w, v)
  {
    forall c ensures RecAt(v, c, mode) { assert RecAt(w, c, mode); }
    forall q ensures LegAt(v, q) { assert LegAt(w, q); }
    forall s ensures CapAt(v, s, mode) {
      assert CapAt(w, s, mode);
      RailLightens(w, v.rail, s, mode);
      assert Outstanding(v, s, mode) == Outstanding(w.(rail := v.rail), s, mode);
    }
  }

  lemma {:induction false} AskKeeps(w: World, r: SessionId, reply: Reply, mode: Mode)
    requires Inv(w, mode)
    ensures Inv(Ask(w, r, reply), mode) && Frame(w, Ask(w, r, reply))
  {
    assert LegAt(w, r);
    RailKeeps(w, Ask(w, r, reply), r, mode);
  }

  lemma {:induction false} SendKeeps(w: World, t: Transfer, now: int, reply: Reply, mode: Mode)
    requires Inv(w, mode)
    requires w.life != For(0) ==>
               NipLeg(t.session) in w.books.transfers && SentCount(w.log, t.session) == 0 && t.session !in w.rail
    ensures Inv(Send(w, t, now, reply), mode) && Frame(w, Send(w, t, now, reply))
  {
    assert LegAt(w, t.session);
    RailKeeps(w, Send(w, t, now, reply), t.session, mode);
  }

  // ---------------------------------------------------------------- ledger calls

  predicate Touches(op: L.Op, r: SessionId)
  {
    Names(op, NipLeg(r)) || Names(op, NipPost(r))
  }

  lemma {:induction false} ElsewhereLeg(w: World, op: L.Op, r: SessionId)
    requires LegAt(w, r) && !Touches(op, r)
    ensures LegAt(w.(books := L.Step(w.books, op)), r)
  {
    StepFrame(w.books, op, NipLeg(r));
    StepFrame(w.books, op, NipPost(r));
  }

  lemma {:induction false} StepGrows(s: L.State, op: L.Op, id: TransferId)
    requires id in s.transfers
    ensures id in L.Step(s, op).transfers
  {
    if op.DoCreate? { OpenAllRecords(s, op.batch); }
  }

  lemma {:induction false} BooksKeep(w: World, op: L.Op, r: SessionId, mode: Mode)
    requires Inv(w, mode) && Disciplined(w.books, op) && (forall q :: q != r ==> !Touches(op, q))
    requires LegAt(w.(books := L.Step(w.books, op)), r)
    ensures var v := w.(books := L.Step(w.books, op));
            Inv(v, mode) && Frame(w, v)
  {
    var v := w.(books := L.Step(w.books, op));
    StepKeeps(w.books, op);
    forall id | id in w.books.transfers ensures id in v.books.transfers { StepGrows(w.books, op, id); }
    forall c ensures RecAt(v, c, mode) { assert RecAt(w, c, mode); }
    forall q ensures LegAt(v, q) {
      assert LegAt(w, q);
      if q != r { ElsewhereLeg(w, op, q); }
    }
    forall s ensures CapAt(v, s, mode) { assert CapAt(w, s, mode); }
  }

  lemma {:induction false} DoKeeps(w: World, op: L.Op, r: SessionId, mode: Mode)
    requires Inv(w, mode) && Disciplined(w.books, op) && (forall q :: q != r ==> !Touches(op, q))
    requires w.life != For(0) ==> LegAt(w.(books := L.Step(w.books, op)), r)
    ensures Inv(Do(w, op), mode) && Frame(w, Do(w, op))
  {
    if w.life != For(0) {
      BooksKeep(w, op, r, mode);
      LifeKeeps(w.(books := L.Step(w.books, op)), Tick(w.life), w.clock, mode);
    }
  }

  lemma {:induction false} LifeKeeps(w: World, life: Life, clock: int, mode: Mode)
    requires Inv(w, mode)
    ensures Inv(w.(life := life, clock := clock), mode)
  {
    var v := w.(life := life, clock := clock);
    forall c ensures RecAt(v, c, mode) { assert RecAt(w, c, mode); }
    forall r ensures LegAt(v, r) { assert LegAt(w, r); }
    forall s ensures CapAt(v, s, mode) { assert CapAt(w, s, mode); }
  }

  lemma {:induction false} AsideKeeps(w: World, op: L.Op, mode: Mode)
    requires Inv(w, mode) && Disciplined(w.books, op) && forall r :: !Touches(op, r)
    ensures Inv(Do(w, op), mode) && Frame(w, Do(w, op))
    ensures Inv(w.(books := L.Step(w.books, op)), mode)
  {
    assert LegAt(w, "") && !Touches(op, "");
    ElsewhereLeg(w, op, "");
    BooksKeep(w, op, "", mode);
    DoKeeps(w, op, "", mode);
  }

  /** Placing the leg of a recorded transfer. */
  lemma {:induction false} HoldKeeps(w: World, t: Transfer, mode: Mode)
    requires Inv(w, mode) && L.Hold(w.books, NipLeg(t.session), LegTransfer(t)).1.Ok?
    requires w.life != For(0) ==> Sess(t.session) in w.recs && Same(w.recs[Sess(t.session)], t)
    ensures var v := Do(w, L.DoHold(NipLeg(t.session), LegTransfer(t)));
            Inv(v, mode) && Frame(w, v) && (v.life != For(0) ==> NipLeg(t.session) in v.books.transfers)
  {
    var op := L.DoHold(NipLeg(t.session), LegTransfer(t));
    assert LegAt(w, t.session);
    StepFrame(w.books, op, NipPost(t.session));
    DoKeeps(w, op, t.session, mode);
  }

  /** The transfer is one the service stored: its copies agree with it and its leg exists if it says so. */
  ghost predicate Known(w: World, t: Transfer)
  {
    && (Sess(t.session) in w.recs ==> Same(w.recs[Sess(t.session)], t))
    && (t.legged ==> NipLeg(t.session) in w.books.transfers)
  }

  lemma {:induction false} PostLands(w: World, t: Transfer, mode: Mode)
    requires Inv(w, mode) && Known(w, t) && t.legged && t.session in w.rail && w.rail[t.session] == Success
    ensures LegAt(w.(books := L.Step(w.books, L.DoPost(NipLeg(t.session), NipPost(t.session), t.req.amount))), t.session)
    ensures Disciplined(w.books, L.DoPost(NipLeg(t.session), NipPost(t.session), t.req.amount))
  {
    var r := t.session;
    assert LegAt(w, r) && ClosedAt(w.books, NipLeg(r));
    if NipPost(r) !in w.books.transfers { NothingMoved(w.books, NipPost(r)); }
  }

  lemma {:induction false} PostKeepsInv(w: World, t: Transfer, mode: Mode)
    requires Inv(w, mode) && (w.life != For(0) ==> Known(w, t) && t.session in w.rail && w.rail[t.session] == Success)
    ensures Inv(PostLeg(w, t), mode) && Frame(w, PostLeg(w, t))
  {
    if t.legged && w.life != For(0) {
      PostLands(w, t, mode);
      DoKeeps(w, L.DoPost(NipLeg(t.session), NipPost(t.session), t.req.amount), t.session, mode);
    }
  }

  lemma {:induction false} VoidKeepsInv(w: World, t: Transfer, mode: Mode)
    requires Inv(w, mode) && (w.life != For(0) ==> Dead(w.rail, t.session))
    ensures Inv(VoidLeg(w, t), mode) && Frame(w, VoidLeg(w, t))
  {
    if t.legged && w.life != For(0) {
      var op := L.DoVoid(NipLeg(t.session));
      assert LegAt(w, t.session);
      StepFrame(w.books, op, NipPost(t.session));
      DoKeeps(w, op, t.session, mode);
    }
  }

  // ---------------------------------------------------------------- outcome

  /** Copies of a stored transfer, and what the invariant says of them. */
  lemma {:induction false} CopiesAgree(w: World, t: Transfer, mode: Mode)
    requires Inv(w, mode) && Sess(t.session) in w.recs && Same(w.recs[Sess(t.session)], t)
    ensures CopiesOf(w, t)
    ensures mode.Exact? && Good(w.recs[Sess(t.session)].status) ==> CopiesGood(w, t.session)
  {
    forall d | d in w.recs && w.recs[d].session == t.session
      ensures Same(w.recs[d], t) && (mode.Exact? && Good(w.recs[Sess(t.session)].status) ==> Good(w.recs[d].status))
    {
      assert RecAt(w, d, mode);
    }
  }

  /** The transfer is stored under its session and may be written there again with its present status. */
  ghost predicate Rewritable(w: World, t: Transfer, mode: Mode)
  {
    && Sess(t.session) in w.recs && Same(w.recs[Sess(t.session)], t)
    && StatusTrue(w.rail, t)
    && (t.legged ==> NipLeg(t.session) in w.books.transfers)
    && (mode.Exact? && Good(t.status) ==> Good(w.recs[Sess(t.session)].status))
  }

  lemma {:induction false} RewritePut(w: World, c: Slot, t: Transfer, fault: bool, mode: Mode)
    requires Inv(w, mode) && (w.life != For(0) ==> Rewritable(w, t, mode))
    requires c == Sess(t.session) || c == Idem(t.req.key)
    requires w.life != For(0) && c.Idem? && mode.Exact? ==> Good(w.recs[Sess(t.session)].status) ==> Good(t.status)
    ensures var v := Put(w, c, t, fault);
            && Inv(v, mode) && Frame(w, v)
            && (v.life != For(0) ==> Rewritable(v, t, mode))
            && (v.life != For(0) && c.Sess? && !fault ==> v.recs[Sess(t.session)].status == t.status)
  {
    if w.life != For(0) {
      CopiesAgree(w, t, mode);
      assert RecAt(w, Sess(t.session), mode);
    }
    PutKeeps(w, c, t, fault, mode);
  }

  lemma {:induction false} PutBothKeeps(w: World, t: Transfer, lost: Slot -> bool, mode: Mode)
    requires Inv(w, mode) && (w.life != For(0) ==> Rewritable(w, t, mode))
    requires mode.Exact? ==> !lost(Sess(t.session)) || Good(t.status)
    ensures var v := PutBoth(w, t, lost);
            Inv(v, mode) && Frame(w, v) && (v.life != For(0) ==> Rewritable(v, t, mode))
  {
    RewritePut(w, Sess(t.session), t, lost(Sess(t.session)), mode);
    var w1 := Put(w, Sess(t.session), t, lost(Sess(t.session)));
    RewritePut(w1, Idem(t.req.key), t, lost(Idem(t.req.key)), mode);
  }

  /** The outcome goes to the idempotency slot first: safe by the rail, and exact when no write is lost. */
  lemma {:induction false} WriteOutcomeKeeps(w: World, t: Transfer, env: Env, mode: Mode)
    requires Inv(w, mode) && (w.life != For(0) ==> Rewritable(w, t, mode))
    requires mode.Exact? ==> w.life == Forever && !env.lost(t.session)(Sess(t.session)) && !env.lost(t.session)(Idem(t.req.key))
    ensures Inv(WriteOutcome(w, t, env), mode)
  {
    var lost := env.lost(t.session);
    if mode.Exact? {
      assert WriteOutcome(w, t, env).recs == PutBoth(w, t, lost).recs;
      assert WriteOutcome(w, t, env) == PutBoth(w, t, lost);
      PutBothKeeps(w, t, lost, mode);
    } else {
      RewritePut(w, Idem(t.req.key), t, lost(Idem(t.req.key)), mode);
      var w1 := Put(w, Idem(t.req.key), t, lost(Idem(t.req.key)));
      RewritePut(w1, Sess(t.session), t, lost(Sess(t.session)), mode);
    }
  }

  /** No store write is lost. */
  ghost predicate Lossless(env: Env)
  {
    (forall c :: !env.markLost(c)) && (forall r, c :: !env.lost(r)(c))
  }

  /** No crash, and no store write lost. */
  ghost predicate Calm(w: World, env: Env)
  {
    w.life == Forever && Lossless(env)
  }

  lemma {:induction false} ConcludeKeeps(w: World, t: Transfer, env: Env, mode: Mode)
    requires Inv(w, mode) && (mode.Exact? ==> Calm(w, env))
    requires w.life != For(0) ==>
               && Rewritable(w, t, mode) && Known(w, t)
               && t.session in w.rail && w.rail[t.session] == t.status
    ensures Inv(Conclude(w, t, env), mode)
  {
    match t.status
    case Success =>
      PostKeepsInv(w, t, mode);
      WriteOutcomeKeeps(PostLeg(w, t), t, env, mode);
    case Failed =>
      VoidKeepsInv(w, t, mode);
      WriteOutcomeKeeps(VoidLeg(w, t), t, env, mode);
    case _ =>
      WriteOutcomeKeeps(w, t, env, mode);
  }

  // ---------------------------------------------------------------- payout

  /** A session id nobody has seen or named. */
  ghost predicate Unused(w: World, r: SessionId)
  {
    && (forall c :: c in w.recs ==> w.recs[c].session != r) && Unbound(w, r)
    && r !in w.rail && SentCount(w.log, r) == 0
  }

  /** About to be dispatched: stored in flight, with its leg on the ledger, unknown to the rail. */
  ghost predicate Loaded(w: World, t: Transfer)
  {
    && Sess(t.session) in w.recs && Same(w.recs[Sess(t.session)], t)
    && t.status == InFlight && t.legged && NipLeg(t.session) in w.books.transfers
    && t.session !in w.rail && SentCount(w.log, t.session) == 0
  }

  lemma {:induction false} LoadedInFlight(w: World, t: Transfer, mode: Mode)
    requires Inv(w, mode) && Loaded(w, t)
    ensures w.recs[Sess(t.session)].status == InFlight
  {
    assert RecAt(w, Sess(t.session), mode);
  }

  lemma {:induction false} FireKeeps(w: World, t: Transfer, env: Env, mode: Mode)
    requires Inv(w, mode) && (mode.Exact? ==> Calm(w, env)) && (w.life != For(0) ==> Loaded(w, t))
    ensures Inv(Fire(w, t, env), mode)
  {
    if w.life != For(0) {
      LoadedInFlight(w, t, mode);
      SendKeeps(w, t, env.now, env.dispatch, mode);
      var w1 := Send(w, t, env.now, env.dispatch);
      if env.dispatch.Heard? {
        ConcludeKeeps(w1, t.(status := SendAnswer(w, t, env.dispatch)), env, mode);
      } else {
        PutBothKeeps(w1, t, env.lost(t.session), mode);
      }
    }
  }

  lemma {:induction false} PlaceLegKeeps(w: World, t: Transfer, env: Env, mode: Mode)
    requires Inv(w, mode) && (mode.Exact? ==> Calm(w, env)) && t.status == InFlight
    requires w.life != For(0) ==>
               && Sess(t.session) in w.recs && Same(w.recs[Sess(t.session)], t)
               && t.session !in w.rail && SentCount(w.log, t.session) == 0
    ensures Inv(PlaceLeg(w, t, env), mode)
  {
    hide Inv, L.Step, L.Hold;
    AsideKeeps(w, OpenAccount(Collections), mode);
    var w0 := Do(w, OpenAccount(Collections));
    AsideKeeps(w0, OpenAccount(NipClearing), mode);
    var w1 := Do(w0, OpenAccount(NipClearing));
    if L.Hold(w1.books, NipLeg(t.session), LegTransfer(t)).1.Ok? {
      HoldKeeps(w1, t, mode);
      var w2 := Do(w1, L.DoHold(NipLeg(t.session), LegTransfer(t)));
      LegMarkKeeps(w2, t.(legged := true), env, mode);
    }
  }

  lemma {:induction false} LegMarkKeeps(w: World, t: Transfer, env: Env, mode: Mode)
    requires Inv(w, mode) && (mode.Exact? ==> Calm(w, env)) && (w.life != For(0) ==> Loaded(w, t))
    ensures Inv(Fire(PutBoth(w, t, env.markLost), t, env), mode)
  {
    if w.life != For(0) { LoadedInFlight(w, t, mode); }
    PutBothKeeps(w, t, env.markLost, mode);
    FireKeeps(PutBoth(w, t, env.markLost), t, env, mode);
  }

  /** The idempotency slot of a new transfer is written first, and weighs nothing. */
  lemma {:induction false} BeginRecorded(w: World, t: Transfer, env: Env, mode: Mode)
    requires Inv(w, mode) && Unused(w, t.session) && t.status == InFlight && !t.legged && Room(w, t, mode)
    ensures var w1 := Put(w, Idem(t.req.key), t, env.idemFault);
            Inv(w1, mode) && Sess(t.session) !in w1.recs && Room(w1, t, mode)
            && (t.req.purpose == Payout ==> Unbound(w1, t.session))
  {
    hide LegAt, CapAt, WellKept;
    assert RecAt(w, Sess(t.session), mode);
    PutKeeps(w, Idem(t.req.key), t, env.idemFault, mode);
    SumMapUpdate(w.recs, Weight(w.rail, t.req.source, mode), Idem(t.req.key), t);
  }

  lemma {:induction false} BeginKeeps(w: World, t: Transfer, env: Env, mode: Mode)
    requires Inv(w, mode) && (mode.Exact? ==> Calm(w, env)) && Unused(w, t.session)
    requires t.status == InFlight && !t.legged && Room(w, t, mode)
    ensures Inv(Begin(w, t, env), mode)
  {
    hide PlaceLeg, Inv, Outstanding, RecAt;
    BeginRecorded(w, t, env, mode);
    var w1 := Put(w, Idem(t.req.key), t, env.idemFault);
    if !env.idemFault {
      PutKeeps(w1, Sess(t.session), t, env.sessFault, mode);
      if !env.sessFault { PlaceLegKeeps(Put(w1, Sess(t.session), t, false), t, env, mode); }
    }
  }

  predicate Proceeds(w: World, req: Request, env: Env)
  {
    !Malformed(req) && (Idem(req.key) !in w.recs || Expired(w.recs[Idem(req.key)], env.now)) && env.verified
  }

  lemma {:induction false} PayoutUnfolds(w: World, req: Request, env: Env)
    ensures PayoutLocked(w, req, env)
         == if Proceeds(w, req, env) then Begin(w, NewTransfer(req, env), env) else w
  {
  }

  lemma {:induction false} PayoutKeeps(w: World, req: Request, env: Env, mode: Mode)
    requires Inv(w, mode) && (mode.Exact? ==> Calm(w, env)) && Unused(w, env.session)
    requires Room(w, NewTransfer(req, env), mode)
    ensures Inv(PayoutLocked(w, req, env), mode)
  {
    PayoutUnfolds(w, req, env);
    if Proceeds(w, req, env) {
      BeginKeeps(w, NewTransfer(req, env), env, mode);
    }
  }

  // ---------------------------------------------------------------- refund

  ghost predicate Stored(w: World, t: Transfer)
  {
    exists c :: c in w.recs && w.recs[c] == t
  }

  /** A listing of the whole collection, in any order. */
  ghost predicate Listing(w: World, listed: seq<Transfer>)
  {
    && (forall c :: c in w.recs ==> w.recs[c] in listed)
    && (forall i :: 0 <= i < |listed| ==> Stored(w, listed[i]))
  }

  /** Some copy of the session is listed, and every listed copy carries this request and counts. */
  ghost predicate Counted(listed: seq<Transfer>, r: SessionId, req: Request)
  {
    && (exists i :: 0 <= i < |listed| && listed[i].session == r)
    && (forall i :: 0 <= i < |listed| && listed[i].session == r ==> listed[i].req == req && Good(listed[i].status))
  }

  lemma {:induction false} CountedRest(listed: seq<Transfer>, r: SessionId, req: Request)
    requires Counted(listed, r, req) && listed[0].session != r
    ensures Counted(listed[1..], r, req)
  {
    var i :| 0 <= i < |listed| && listed[i].session == r;
    assert listed[1..][i - 1] == listed[i];
  }

  /** The history loop of Refund never counts less than what is outstanding, whichever copies it sees first. */
  lemma {:induction false} RefundedCovers(m: map<Slot, Transfer>, rail: map<SessionId, Status>, mode: Mode,
                                          listed: seq<Transfer>, source: SessionId, seen: set<SessionId>)
    requires forall c :: c in m && Weight(rail, source, mode)(c, m[c]) != 0 ==>
               c.session !in seen && Counted(listed, c.session, m[c].req)
    ensures SumMap(m, Weight(rail, source, mode)) <= Refunded(listed, source, seen)
    decreases |listed|
  {
    var f := Weight(rail, source, mode);
    if listed == [] {
      SumMapZero(m, f);
    } else {
      var t, c := listed[0], Sess(listed[0].session);
      forall d | d in m && f(d, m[d]) != 0 && d != c ensures Counted(listed[1..], d.session, m[d].req) {
        CountedRest(listed, d.session, m[d].req);
      }
      if t.req.purpose == Refund && t.req.source == source && t.session !in seen {
        if c in m { SumMapPick(m, f, c); }
        RefundedCovers(m - {c}, rail, mode, listed[1..], source, seen + {t.session});
        if c !in m { assert m - {c} == m; }
      } else {
        RefundedCovers(m, rail, mode, listed[1..], source, seen);
      }
    }
  }

  lemma {:induction false} OutstandingCounted(w: World, listed: seq<Transfer>, source: SessionId, mode: Mode)
    requires Inv(w, mode) && Listing(w, listed)
    ensures Outstanding(w, source, mode) <= Refunded(listed, source, {})
  {
    forall c | c in w.recs && Weight(w.rail, source, mode)(c, w.recs[c]) != 0
      ensures Counted(listed, c.session, w.recs[c].req)
    {
      assert RecAt(w, c, mode) && w.recs[c] in listed;
      forall i | 0 <= i < |listed| && listed[i].session == c.session
        ensures listed[i].req == w.recs[c].req && Good(listed[i].status)
      {
        assert Stored(w, listed[i]);
        var d :| d in w.recs && w.recs[d] == listed[i];
        assert RecAt(w, d, mode);
      }
    }
    RefundedCovers(w.recs, w.rail, mode, listed, source, {});
  }

  /** The refund is accepted although its cap sum wraps around 64 bits. */
  predicate AcceptedByWrap(w: World, req: Request, listed: seq<Transfer>)
  {
    BoundRequest(w, req, listed).Some? && Refunded(listed, req.source, {}) + req.amount >= UINT64
  }

  lemma {:induction false} RefundKeeps(w: World, req: Request, listed: seq<Transfer>, env: Env, mode: Mode)
    requires Inv(w, mode) && (mode.Exact? ==> Calm(w, env)) && Unused(w, env.session) && Listing(w, listed)
    requires !mode.Loose? ==> !AcceptedByWrap(w, req, listed)
    ensures Inv(RefundFor(w, req, listed, env), mode)
  {
    OutstandingCounted(w, listed, req.source, mode);
    var bound := BoundRequest(w, req, listed);
    if bound.Some? { PayoutKeeps(w, bound.value, env, mode); }
  }

  /**
   Where the refunds so far are within the payout, as 64-bit amounts, the cap check
   decides correctly if and only if the sum fits in 64 bits.
   */
  lemma {:induction false} CapCheckExactIff(listed: seq<Transfer>, source: SessionId, amount: nat, cap: nat)
    requires Refunded(listed, source, {}) <= cap < UINT64 && amount < UINT64
    ensures (CapExceeded(listed, source, amount, cap) <==> Refunded(listed, source, {}) + amount > cap)
       <==> Refunded(listed, source, {}) + amount < UINT64
  {
    var sum := Refunded(listed, source, {}) + amount;
    if sum < UINT64 {
      assert sum % UINT64 == sum;
    } else {
      assert sum % UINT64 == sum - UINT64;
    }
  }

  // ---------------------------------------------------------------- reversal, sweep, purge

  lemma {:induction false} ReverseKeeps(w: World, session: SessionId, env: Env, mode: Mode)
    requires Inv(w, mode) && (mode.Exact? ==> Calm(w, env))
    ensures Inv(Reverse(w, session, env), mode) && Frame(w, Reverse(w, session, env))
  {
    if Sess(session) in w.recs && w.recs[Sess(session)].status !in {Success, Reversed} {
      var reply := env.reversal(session);
      AskKeeps(w, session, reply, mode);
      assert RecAt(w, Sess(session), mode);
      if reply.Heard? {
        PutBothKeeps(Ask(w, session, reply), w.recs[Sess(session)].(status := Answer(w.rail, session, reply.choice)),
                     env.lost(session), mode);
      }
    }
  }

  lemma {:induction false} KnownLater(w: World, v: World, t: Transfer)
    requires Known(w, t) && Frame(w, v)
    ensures Known(v, t)
  {
  }

  lemma {:induction false} SuccessStored(w: World, t: Transfer, mode: Mode)
    requires Inv(w, mode) && Known(w, t) && t.session in w.rail && w.rail[t.session] == Success
    ensures Rewritable(w, t.(status := Success), mode)
  {
    assert LegAt(w, t.session);
    assert RecAt(w, Sess(t.session), mode);
  }

  /** A successful answer: post the leg, then write both records. */
  lemma {:induction false} SucceedKeeps(w: World, t: Transfer, env: Env, mode: Mode)
    requires Inv(w, mode) && (mode.Exact? ==> Calm(w, env)) && Known(w, t)
    requires w.life != For(0) ==> t.session in w.rail && w.rail[t.session] == Success
    ensures var w1 := PostLeg(w, t);
            var v := PutBoth(w1, t.(status := Success), env.lost(t.session));
            Inv(w1, mode) && Frame(w, w1) && Inv(v, mode) && Frame(w, v)
  {
    hide Inv, L.Step, PutBoth;
    if w.life != For(0) { SuccessStored(w, t, mode); }
    PostKeepsInv(w, t, mode);
    PutBothKeeps(PostLeg(w, t), t.(status := Success), env.lost(t.session), mode);
  }

  lemma {:induction false} ResolveKeeps(w: World, t: Transfer, env: Env, mode: Mode)
    requires Inv(w, mode) && (mode.Exact? ==> Calm(w, env)) && Known(w, t)
    ensures Inv(Resolve(w, t, env), mode) && Frame(w, Resolve(w, t, env))
  {
    hide Inv, L.Step, L.Post, Reverse, PutBoth, PostLeg;
    var reply := env.tsq(t.session);
    var w1 := Ask(w, t.session, reply);
    AskKeeps(w, t.session, reply, mode);
    if reply.Heard? {
      match Answer(w.rail, t.session, reply.choice)
      case Success =>
        SucceedKeeps(w1, t, env, mode);
      case Failed =>
        VoidKeepsInv(w1, t, mode);
        ReverseKeeps(VoidLeg(w1, t), t.session, env, mode);
      case _ =>
    }
  }

  ghost predicate AllKnown(w: World, listed: seq<Transfer>)
  {
    forall i :: 0 <= i < |listed| ==> Known(w, listed[i])
  }

  lemma {:induction false} SweepKeeps(w: World, listed: seq<Transfer>, env: Env, seen: set<SessionId>, mode: Mode)
    requires Inv(w, mode) && (mode.Exact? ==> Calm(w, env)) && AllKnown(w, listed)
    ensures Inv(Sweep(w, listed, env, seen), mode)
    decreases |listed|
  {
    if listed != [] {
      var rest := listed[1..];
      if listed[0].status != InFlight || listed[0].session in seen {
        SweepKeeps(w, rest, env, seen, mode);
      } else {
        var w1 := Resolve(w, listed[0], env);
        ResolveKeeps(w, listed[0], env, mode);
        ResolveLife(w, listed[0], env);
        forall i | 0 <= i < |rest| ensures Known(w1, rest[i]) { KnownLater(w, w1, listed[i + 1]); }
        SweepKeeps(w1, rest, env, seen + {listed[0].session}, mode);
      }
    }
  }

  lemma {:induction false} ResolveLife(w: World, t: Transfer, env: Env)
    ensures w.life == Forever ==> Resolve(w, t, env).life == Forever
  {
  }

  lemma {:induction false} PurgeKeeps(w: World, listed: seq<Transfer>, now: int, mode: Mode)
    requires Inv(w, mode)
    ensures Inv(Purge(w, listed, now), mode)
    decreases |listed|
  {
    if listed != [] {
      DeleteKeeps(w, listed[0].req.key, mode);
      PurgeKeeps(if Purged(listed[0], now) then Delete(w, Idem(listed[0].req.key)) else w, listed[1..], now, mode);
    }
  }

  // ---------------------------------------------------------------- runs

  datatype Call = Call(op: Op, life: Life)

  ghost predicate Admissible(w: World, op: Op)
  {
    && w.clock <= TimeOf(w, op)
    && match op
       case DoPayout(_, env) => Unused(w, env.session)
       case DoRefund(_, listed, env) => Unused(w, env.session) && Listing(w, listed)
       case DoReversal(_, _) => true
       case DoSweep(listed, _) => Listing(w, listed)
       case DoPurge(listed, _) => Listing(w, listed)
       case DoElsewhere(op) => Disciplined(w.books, op) && forall r :: !Touches(op, r)
  }

  /** A refund sent through Payout, which checks no cap, fits its payout; any other is not accepted by a wrapping sum. */
  ghost predicate Bounded(w: World, op: Op)
  {
    match op
    case DoPayout(req, env) => Room(w, NewTransfer(req, env), Bound)
    case DoRefund(req, listed, _) => !AcceptedByWrap(w, req, listed)
    case _ => true
  }

  ghost predicate BoundedRun(w: World, calls: seq<Call>)
  {
    calls == [] || (BoundedRun(w, calls[..|calls| - 1]) && Bounded(Run(w, calls[..|calls| - 1]), calls[|calls| - 1].op))
  }

  /** The call neither dies nor loses a write, and a refund sent through Payout, which checks no cap, fits by the records. */
  ghost predicate Undisturbed(w: World, c: Call)
  {
    && c.life == Forever && (c.op.DoPurge? || c.op.DoElsewhere? || Lossless(c.op.env))
    && (c.op.DoPayout? ==> Room(w, NewTransfer(c.op.req, c.op.env), Exact))
  }

  ghost predicate UndisturbedRun(w: World, calls: seq<Call>)
  {
    calls == [] || (UndisturbedRun(w, calls[..|calls| - 1]) && Undisturbed(Run(w, calls[..|calls| - 1]), calls[|calls| - 1]))
  }

  function Run(w: World, calls: seq<Call>): World
  {
    if calls == [] then w
    else Step(Run(w, calls[..|calls| - 1]), calls[|calls| - 1].op, calls[|calls| - 1].life)
  }

  ghost predicate AdmissibleRun(w: World, calls: seq<Call>)
  {
    calls == [] || (AdmissibleRun(w, calls[..|calls| - 1]) && Admissible(Run(w, calls[..|calls| - 1]), calls[|calls| - 1].op))
  }

  const START := World(map[], map[], Unsent, L.INITIAL, 0, Forever)

  lemma {:induction false} ListingKnown(w: World, v: World, listed: seq<Transfer>, mode: Mode)
    requires Inv(w, mode) && Listing(w, listed) && v.recs == w.recs && v.books == w.books
    ensures AllKnown(v, listed)
  {
    forall i | 0 <= i < |listed| ensures Known(v, listed[i]) {
      assert Stored(w, listed[i]);
      var c :| c in w.recs && w.recs[c] == listed[i];
      assert RecAt(w, c, mode);
    }
  }

  lemma {:induction false} StepKeepsInv(w: World, c: Call, mode: Mode)
    requires Inv(w, mode) && Admissible(w, c.op) && (!mode.Loose? ==> Bounded(w, c.op)) && (mode.Exact? ==> Undisturbed(w, c))
    ensures Inv(Step(w, c.op, c.life), mode)
  {
    var v := w.(clock := TimeOf(w, c.op), life := c.life);
    LifeKeeps(w, c.life, TimeOf(w, c.op), mode);
    match c.op
    case DoPayout(req, env) => PayoutKeeps(v, req, env, mode);
    case DoRefund(req, listed, env) => RefundKeeps(v, req, listed, env, mode);
    case DoReversal(session, env) => ReverseKeeps(v, session, env, mode);
    case DoSweep(listed, env) =>
      ListingKnown(w, v, listed, mode);
      SweepKeeps(v, listed, env, {}, mode);
    case DoPurge(listed, now) => PurgeKeeps(v, listed, now, mode);
    case DoElsewhere(op) => AsideKeeps(v, op, mode);
  }

  /** What the bound on refunds comes on top of. */
  lemma {:induction false} Loosened(w: World, mode: Mode)
    requires Inv(w, mode)
    ensures Inv(w, Loose)
  {
    forall c ensures RecAt(w, c, Loose) { assert RecAt(w, c, mode); }
    forall s ensures CapAt(w, s, Loose) { }
  }

  lemma {:induction false} StartHolds(mode: Mode)
    ensures Inv(START, mode)
  {
    InitialWellKept();
  }

  lemma {:induction false} RunKeepsInv(calls: seq<Call>, mode: Mode)
    requires AdmissibleRun(START, calls)
    requires (!mode.Loose? ==> BoundedRun(START, calls)) && (mode.Exact? ==> UndisturbedRun(START, calls))
    ensures Inv(Run(START, calls), mode)
  {
    if calls == [] {
      StartHolds(mode);
    } else {
      var n := |calls| - 1;
      RunKeepsInv(calls[..n], mode);
      StepKeepsInv(Run(START, calls[..n]), calls[n], mode);
    }
  }

  // ---------------------------------------------------------------- theorems

  /**
   With crashes and lost writes anywhere: the refunds bound to a payout that the
   rail has executed or may still execute never sum to more than the payout.
   */
  lemma {:induction false} RefundsWithinPayout(calls: seq<Call>, s: SessionId)
    requires AdmissibleRun(START, calls) && BoundedRun(START, calls)
    requires Sess(s) in Run(START, calls).recs && Run(START, calls).recs[Sess(s)].req.purpose == Payout
    ensures Outstanding(Run(START, calls), s, Bound) <= Run(START, calls).recs[Sess(s)].req.amount
  {
    RunKeepsInv(calls, Bound);
    assert CapAt(Run(START, calls), s, Bound);
  }

  /** Without crashes and lost writes the same holds of the refunds recorded as successful or in flight. */
  lemma {:induction false} RecordedRefundsWithinPayout(calls: seq<Call>, s: SessionId)
    requires AdmissibleRun(START, calls) && BoundedRun(START, calls) && UndisturbedRun(START, calls)
    requires Sess(s) in Run(START, calls).recs && Run(START, calls).recs[Sess(s)].req.purpose == Payout
    ensures Outstanding(Run(START, calls), s, Exact) <= Run(START, calls).recs[Sess(s)].req.amount
  {
    RunKeepsInv(calls, Exact);
    assert CapAt(Run(START, calls), s, Exact);
  }

  /**
   In every state a run can reach, mid-operation crashes included: a session is
   dispatched at most once and only with its record stored and its leg on the
   ledger; a final status is the rail's; and its clearing leg is posted only
   after the rail reported success, once, for the recorded amount.
   */
  lemma {:induction false} DispatchAndLeg(calls: seq<Call>, r: SessionId)
    requires AdmissibleRun(START, calls)
    ensures var w := Run(START, calls);
            && SentCount(w.log, r) <= 1
            && (SentCount(w.log, r) == 1 ==> Sess(r) in w.recs && NipLeg(r) in w.books.transfers)
            && (Sess(r) in w.recs ==> StatusTrue(w.rail, w.recs[Sess(r)]))
            && Moves(w.books.journal, NipPost(r)) <= 1
            && (Moves(w.books.journal, NipPost(r)) == 1 ==> LegPosted(w, r))
  {
    RunKeepsInv(calls, Loose);
    var w := Run(START, calls);
    assert LegAt(w, r) && RecAt(w, Sess(r), Loose) && OnceAt(w.books, NipPost(r));
  }
}
