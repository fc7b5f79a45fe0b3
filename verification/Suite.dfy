/**
 The whole suite: payments, agent float, commissions and NIP transfers interleaved in
 any order on one ledger, each call cut off anywhere, with money coming in and going
 out beside them. Every service keeps its laws, because nobody touches what the laws of
 another speak about.
 */
module Suites {
  import opened Prelude
  import opened Ids
  import L = Ledger
  import opened LedgerLaws
  import opened SharedLedger
  import P = Payments
  import PL = PaymentLaws
  import PR = PaymentRuns
  import PT = PaymentTheorems
  import PF = PaymentFootprint
  import F = Floats
  import FL = FloatLaws
  import FF = FloatFootprint
  import C = Commissions
  import CL = CommissionLaws
  import CF = CommissionFootprint
  import N = Nip
  import NL = NipLaws
  import NF = NipFootprint

  // ---------------------------------------------------------------- another service was at work

  lemma {:induction false} PaymentsSpared(me: Service, w: P.World, b: L.State)
    requires PL.Inv(w) && Spares(me, w.books, b) && me != PaymentSide && WellKept(b)
    ensures PL.Inv(w.(books := b))
  {
    hide PL.At, WellKept, SameRecord, Apart;
    var v := w.(books := b);
    forall a ensures PL.PlainAt(b, a) { assert PL.PlainAt(w.books, a) && SparesAccount(me, w.books, b, a); }
    forall id ensures PL.At(v, id) {
      PaymentRecordsSpared(me, w.books, b, id);
      PL.AtFrame(w, v, id);
    }
  }

  lemma {:induction false} PaymentRecordsSpared(me: Service, a: L.State, b: L.State, id: PaymentId)
    requires Spares(me, a, b) && me != PaymentSide
    ensures PL.SameBooksFor(a, b, id)
  {
    hide SameRecord, SparesAccount, Apart;
    assert SparesId(me, a, b, PsmIntent(id)) && SparesId(me, a, b, PsmPost(id)) && SparesId(me, a, b, PsmFee(id));
    assert SparesId(me, a, b, PsmCompensation(id)) && SparesId(me, a, b, PsmDisputeHold(id)) && SparesId(me, a, b, PsmDisputeDebit(id));
  }

  lemma {:induction false} FloatsSpared(me: Service, w: F.World, b: L.State)
    requires FL.Inv(w, true) && Spares(me, w.books, b) && me != FloatSide && WellKept(b)
    ensures FL.Inv(w.(books := b), true)
  {
    hide WellKept, Apart;
    var v := w.(books := b);
    forall k ensures FL.At(v, k, true) {
      assert FL.At(w, k, true);
      assert SparesId(me, w.books, b, FloatPending(k.kind, k.reference)) && SparesId(me, w.books, b, FloatPost(k.kind, k.reference));
    }
    forall a ensures FL.CapHeld(b, a) { assert FL.CapHeld(w.books, a) && SparesAccount(me, w.books, b, a); }
  }

  lemma {:induction false} CommissionsSpared(me: Service, w: C.World, b: L.State, owed: map<C.Key, CL.Due>)
    requires CL.Inv(w, owed) && Spares(me, w.books, b) && me != CommissionSide && WellKept(b)
    ensures CL.Inv(w.(books := b), owed)
  {
    hide WellKept, Apart, CL.At, SparesAccount;
    forall k ensures CL.At(w.(books := b), k, owed) { LevelSpared(me, w, b, k, owed); }
  }

  lemma {:induction false} LevelSpared(me: Service, w: C.World, b: L.State, k: C.Key, owed: map<C.Key, CL.Due>)
    requires CL.At(w, k, owed) && Spares(me, w.books, b) && me != CommissionSide
    ensures CL.At(w.(books := b), k, owed)
  {
    hide Apart;
    assert SparesId(me, w.books, b, C.HoldId(k)) && SparesId(me, w.books, b, C.PostId(k)) && SparesId(me, w.books, b, C.ClawbackId(k));
    assert SparesAccount(me, w.books, b, CommissionPool);
    if k in w.records { assert SparesAccount(me, w.books, b, AgentCommission(w.records[k].payload.agent)); }
  }

  lemma {:induction false} NipSpared(me: Service, w: N.World, b: L.State)
    requires NL.Inv(w, NL.Bound) && Spares(me, w.books, b) && me != NipSide && WellKept(b)
    ensures NL.Inv(w.(books := b), NL.Bound)
  {
    hide WellKept, Apart, SparesAccount;
    var v := w.(books := b);
    forall c ensures NL.RecAt(v, c, NL.Bound) {
      assert NL.RecAt(w, c, NL.Bound);
      if c in w.recs { assert SparesId(me, w.books, b, NipLeg(w.recs[c].session)); }
    }
    forall r ensures NL.LegAt(v, r) {
      assert NL.LegAt(w, r) && SparesId(me, w.books, b, NipLeg(r)) && SparesId(me, w.books, b, NipPost(r));
    }
    forall s ensures NL.CapAt(v, s, NL.Bound) { assert NL.CapAt(w, s, NL.Bound); }
  }

  // ---------------------------------------------------------------- traffic of nobody

  lemma {:induction false} PaymentsUntouched(w: P.World, l: L.Op)
    requires PL.Inv(w) && OutsideOp(w.books, l)
    ensures PL.Inv(w.(books := L.Step(w.books, l)))
  {
    hide PL.At, WellKept, L.Step;
    forall x, t | PL.Mine(t, x) ensures !Names(l, t) { OutsideNames(w.books, l, t); }
    PR.ElsewhereKeeps(w, l);
  }

  lemma {:induction false} FloatsUntouched(w: F.World, l: L.Op)
    requires FL.Inv(w, true) && OutsideOp(w.books, l)
    ensures FL.Inv(w.(books := L.Step(w.books, l)), true)
  {
    hide FL.Inv, L.Step;
    forall k: F.Key ensures !FL.Touches(l, k) {
      OutsideNames(w.books, l, FloatPending(k.kind, k.reference));
      OutsideNames(w.books, l, FloatPost(k.kind, k.reference));
    }
    FL.StepKeepsInv(w, F.DoElsewhere(l), w.life, true);
  }

  lemma {:induction false} CommissionsUntouched(w: C.World, l: L.Op, owed: map<C.Key, CL.Due>)
    requires CL.Inv(w, owed) && OutsideOp(w.books, l)
    ensures CL.Inv(w.(books := L.Step(w.books, l)), owed)
  {
    hide CL.Inv, L.Step;
    forall k: C.Key ensures !CL.Touches(l, k) {
      OutsideNames(w.books, l, C.HoldId(k));
      OutsideNames(w.books, l, C.PostId(k));
      OutsideNames(w.books, l, C.ClawbackId(k));
    }
    CL.StepFollows(w, C.DoElsewhere(l), w.life, owed);
  }

  lemma {:induction false} NipUntouched(w: N.World, l: L.Op)
    requires NL.Inv(w, NL.Bound) && OutsideOp(w.books, l)
    ensures NL.Inv(w.(books := L.Step(w.books, l)), NL.Bound)
  {
    hide NL.Inv, L.Step;
    forall r ensures !NL.Touches(l, r) {
      OutsideNames(w.books, l, NipLeg(r));
      OutsideNames(w.books, l, NipPost(r));
    }
    NL.AsideKeeps(w, l, NL.Bound);
  }

  // ---------------------------------------------------------------- what each service leaves alone

  lemma {:induction false} PaymentsSpare(w: P.World, op: P.Op, life: Life)
    requires PL.Inv(w) && Apart(w.books) && PT.Admissible(w, op, life) && !op.DoElsewhere?
    ensures Spares(PaymentSide, w.books, P.Step(w, op, life).books)
  {
    hide PL.Inv, Apart, Spares, P.CreateIntent, P.Authorise, P.Capture, P.Void, P.HandleWebhook, P.Sweep;
    var v := w.(life := life);
    SparesNothing(PaymentSide, w.books);
    PL.SpendKeeps(w, life);
    match op
    case DoIntent(req, id, gateOpen, providerKnown, env) => PF.Intent(w.books, v, req, id, gateOpen, providerKnown, env);
    case DoAuthorise(id, env) =>
      if id in w.payments { PF.RowNamed(w, id); }
      PF.Authorises(w.books, v, id, env);
    case DoCapture(id, env) =>
      if id in w.payments { PF.RowNamed(w, id); }
      PF.Captures(w.books, v, id, env);
    case DoVoid(id, env) =>
      if id in w.payments { PF.RowNamed(w, id); }
      PF.Voids(w.books, v, id, env);
    case DoWebhook(hook, id, env) => PF.Hooks(w.books, v, hook, id, env);
    case DoSweep(listed, envs) =>
      forall i | 0 <= i < |listed| ensures PF.Named(listed[i]) {
        assert PR.Stored(w, listed[i]);
        PF.RowNamed(w, listed[i].id);
      }
      PF.Sweeps(w.books, v, listed, envs);
  }

  lemma {:induction false} FloatsSpare(w: F.World, op: F.Op, life: Life)
    requires Apart(w.books) && !op.DoElsewhere?
    ensures Spares(FloatSide, w.books, F.Step(w, op, life).books)
  {
    hide Apart, Spares, F.Move, F.Sweep;
    SparesNothing(FloatSide, w.books);
    match op
    case DoMove(kind, agent, amount, reference, f) => FF.Moves(w.books, w.(life := life), kind, agent, amount, reference, f);
    case DoSweep(listed, faults) => FF.Sweeps(w.books, w.(life := life), listed, faults);
  }

  lemma {:induction false} CommissionsSpare(w: C.World, op: C.Op, life: Life)
    requires Apart(w.books) && !op.DoElsewhere?
    ensures Spares(CommissionSide, w.books, C.Step(w, op, life).books)
  {
    hide Apart, Spares, C.Accrue, C.ClawFrom;
    SparesNothing(CommissionSide, w.books);
    match op
    case DoAccrue(req, env) => CF.Accrues(w.books, w.(life := life), req, env);
    case DoClawback(tenant, reference, listed, fault) =>
      CF.ClawsFrom(w.books, w.(life := life), tenant, reference, listed, fault, 0);
    case DoForget(k) =>
  }

  lemma {:induction false} NipSpares(w: N.World, op: N.Op, life: Life)
    requires Apart(w.books) && !op.DoElsewhere?
    ensures Spares(NipSide, w.books, N.Step(w, op, life).books)
  {
    hide Apart, Spares, N.PayoutLocked, N.BoundRequest, N.Sweep, N.Purge;
    var v := w.(clock := N.TimeOf(w, op), life := life);
    SparesNothing(NipSide, w.books);
    match op
    case DoPayout(req, env) => NF.Pays(w.books, v, req, env);
    case DoRefund(req, listed, env) =>
      var bound := N.BoundRequest(v, req, listed);
      if bound.Some? { NF.Pays(w.books, v, bound.value, env); }
    case DoReversal(session, env) =>
    case DoSweep(listed, env) => NF.Sweeps(w.books, v, listed, env, {});
    case DoPurge(listed, now) => NF.Purges(v, listed, now);
  }

  // ---------------------------------------------------------------- the suite

  /** The stores of the four services, each next to the ledger they share. */
  datatype Suite = Suite(pay: P.World, float: F.World, comm: C.World, nip: N.World)

  datatype Op =
    | AtPayments(p: P.Op)
    | AtFloat(f: F.Op)
    | AtCommissions(c: C.Op)
    | AtNip(n: N.Op)
    | AtLedger(l: L.Op)  // nobody's: a deposit, a settlement, an account opened beforehand

  datatype Call = Call(op: Op, life: Life)

  function Share(s: Suite, books: L.State): Suite
  {
    Suite(s.pay.(books := books), s.float.(books := books), s.comm.(books := books), s.nip.(books := books))
  }

  /** One operation of one service; its ledger is everybody's. */
  function Step(s: Suite, op: Op, life: Life): Suite
  {
    match op
    case AtPayments(p) => var v := P.Step(s.pay, p, life); Share(s.(pay := v), v.books)
    case AtFloat(f) => var v := F.Step(s.float, f, life); Share(s.(float := v), v.books)
    case AtCommissions(c) => var v := C.Step(s.comm, c, life); Share(s.(comm := v), v.books)
    case AtNip(n) => var v := N.Step(s.nip, n, life); Share(s.(nip := v), v.books)
    case AtLedger(l) => Share(s, L.Step(s.pay.books, l))
  }

  const START := Suite(PT.EMPTY_WORLD, FL.START, CL.START, NL.START)

  predicate Shared(s: Suite)
  {
    s.float.books == s.pay.books && s.comm.books == s.pay.books && s.nip.books == s.pay.books
  }

  ghost predicate Inv(s: Suite, owed: map<C.Key, CL.Due>)
  {
    && Shared(s) && Apart(s.pay.books)
    && PL.Inv(s.pay) && FL.Inv(s.float, true) && CL.Inv(s.comm, owed) && NL.Inv(s.nip, NL.Bound)
  }

  /** Each service's own assumptions on its operation; none about the other services. */
  ghost predicate Admissible(s: Suite, op: Op, life: Life, owed: map<C.Key, CL.Due>)
  {
    match op
    case AtPayments(p) => !p.DoElsewhere? && PT.Admissible(s.pay, p, life)
    case AtFloat(f) => !f.DoElsewhere? && FL.Admissible(s.float, f, true)
    case AtCommissions(c) => !c.DoElsewhere? && CL.Admissible(s.comm, c, owed)
    case AtNip(n) => !n.DoElsewhere? && NL.Admissible(s.nip, n) && NL.Bounded(s.nip, n)
    case AtLedger(l) => OutsideOp(s.pay.books, l)
  }

  function Run(s: Suite, calls: seq<Call>): Suite
  {
    if calls == [] then s
    else Step(Run(s, calls[..|calls| - 1]), calls[|calls| - 1].op, calls[|calls| - 1].life)
  }

  ghost predicate AdmissibleRun(s: Suite, calls: seq<Call>, owed: map<C.Key, CL.Due>)
  {
    calls == [] || (&& AdmissibleRun(s, calls[..|calls| - 1], owed)
                    && Admissible(Run(s, calls[..|calls| - 1]), calls[|calls| - 1].op, calls[|calls| - 1].life, owed))
  }

  lemma {:induction false} SparesApart(me: Service, a: L.State, b: L.State)
    requires Spares(me, a, b)
    ensures Apart(b)
  {
  }

  /** The ledger is kept in every service's invariant. */
  lemma {:induction false} LedgerKept(s: Suite, owed: map<C.Key, CL.Due>)
    ensures PL.Inv(s.pay) ==> WellKept(s.pay.books)
    ensures FL.Inv(s.float, true) ==> WellKept(s.float.books)
    ensures CL.Inv(s.comm, owed) ==> WellKept(s.comm.books)
    ensures NL.Inv(s.nip, NL.Bound) ==> WellKept(s.nip.books)
  {
    hide WellKept, PL.At, FL.At, CL.At, NL.RecAt, NL.LegAt, NL.CapAt;
  }

  /** After a step of one service, the invariants of the other three. */
  lemma {:induction false} OthersKept(me: Service, s: Suite, b: L.State, owed: map<C.Key, CL.Due>)
    requires Inv(s, owed) && Spares(me, s.pay.books, b) && WellKept(b)
    ensures Apart(b)
    ensures me != PaymentSide ==> PL.Inv(s.pay.(books := b))
    ensures me != FloatSide ==> FL.Inv(s.float.(books := b), true)
    ensures me != CommissionSide ==> CL.Inv(s.comm.(books := b), owed)
    ensures me != NipSide ==> NL.Inv(s.nip.(books := b), NL.Bound)
  {
    hide PL.Inv, FL.Inv, CL.Inv, NL.Inv, Apart, Spares, WellKept;
    SparesApart(me, s.pay.books, b);
    if me != PaymentSide { PaymentsSpared(me, s.pay, b); }
    if me != FloatSide { FloatsSpared(me, s.float, b); }
    if me != CommissionSide { CommissionsSpared(me, s.comm, b, owed); }
    if me != NipSide { NipSpared(me, s.nip, b); }
  }

  lemma {:induction false} StepKeeps(s: Suite, c: Call, owed: map<C.Key, CL.Due>)
    requires Inv(s, owed) && Admissible(s, c.op, c.life, owed)
    ensures Inv(Step(s, c.op, c.life), owed)
  {
    hide PL.Inv, FL.Inv, CL.Inv, NL.Inv, Apart, Spares, P.Step, F.Step, C.Step, N.Step,
      PT.Admissible, FL.Admissible, CL.Admissible, NL.Admissible, WellKept, OutsideOp, L.Step;
    var v := Step(s, c.op, c.life);
    match c.op
    case AtPayments(op) =>
      PaymentsSpare(s.pay, op, c.life);
      PT.StepKeeps(s.pay, op, c.life);
      LedgerKept(v, owed);
      OthersKept(PaymentSide, s, v.pay.books, owed);
    case AtFloat(op) =>
      FloatsSpare(s.float, op, c.life);
      FL.StepKeepsInv(s.float, op, c.life, true);
      LedgerKept(v, owed);
      OthersKept(FloatSide, s, v.pay.books, owed);
    case AtCommissions(op) =>
      CommissionsSpare(s.comm, op, c.life);
      CL.StepFollows(s.comm, op, c.life, owed);
      LedgerKept(v, owed);
      OthersKept(CommissionSide, s, v.pay.books, owed);
    case AtNip(op) =>
      NipSpares(s.nip, op, c.life);
      NL.StepKeepsInv(s.nip, NL.Call(op, c.life), NL.Bound);
      LedgerKept(v, owed);
      OthersKept(NipSide, s, v.pay.books, owed);
    case AtLedger(l) =>
      PaymentsUntouched(s.pay, l);
      FloatsUntouched(s.float, l);
      CommissionsUntouched(s.comm, l, owed);
      NipUntouched(s.nip, l);
      OutsideApart(s.pay.books, l);
  }

  lemma {:induction false} StartHolds(owed: map<C.Key, CL.Due>)
    ensures Inv(START, owed)
  {
    hide PL.Inv, FL.Inv, CL.Inv, NL.Inv;
    PT.EmptyWorldInv();
    FL.RunKeepsInv([], true);
    CL.StartHolds(owed);
    NL.StartHolds(NL.Bound);
  }

  /** Every interleaving of the four services and outside traffic, with crashes anywhere, keeps all four invariants. */
  lemma {:induction false} RunKeeps(calls: seq<Call>, owed: map<C.Key, CL.Due>)
    requires AdmissibleRun(START, calls, owed)
    ensures Inv(Run(START, calls), owed)
  {
    hide Inv, Admissible, Step;
    if calls == [] {
      StartHolds(owed);
    } else {
      var n := |calls| - 1;
      RunKeeps(calls[..n], owed);
      StepKeeps(Run(START, calls[..n]), calls[n], owed);
    }
  }

  /**
   The promises of the four services hold together in every state the suite can reach:
   each payment's status means what it says about the shared journal, every float
   movement is posted in full or standing and none is voided, each commission level is
   paid at most once, and refunds stay within their payouts.
   */
  lemma {:induction false} PromisesHoldTogether(calls: seq<Call>, owed: map<C.Key, CL.Due>,
                                                id: PaymentId, m: F.Key, k: C.Key, r: SessionId)
    requires AdmissibleRun(START, calls, owed)
    ensures var s := Run(START, calls);
            var j := s.pay.books.journal;
            && Shared(s)
            && (id in s.pay.payments ==> PT.Promised(s.pay, s.pay.payments[id])) && PT.CertBacked(s.pay, id)
            && (m in s.float.movements ==>
                  var x := s.float.movements[m];
                  && x.status != F.Voided && (x.status == F.Posted ==> FL.Landed(s.float.books, x))
                  && (x.status == F.Pending ==> FL.Landed(s.float.books, x) || FL.Standing(s.float.books, x)))
            && Moves(j, C.PostId(k)) <= 1 && Moves(j, C.ClawbackId(k)) <= Moves(j, C.PostId(k))
            && Moves(j, NipPost(r)) <= 1
            && (N.Sess(r) in s.nip.recs && s.nip.recs[N.Sess(r)].req.purpose == N.Payout ==>
                  NL.Outstanding(s.nip, r, NL.Bound) <= s.nip.recs[N.Sess(r)].req.amount)
  {
    hide Run, AdmissibleRun, PT.Promised, PL.Inv, PT.CertBacked;
    RunKeeps(calls, owed);
    var s := Run(START, calls);
    PT.InvPromises(s.pay, id);
    assert FL.At(s.float, m, true) && CL.At(s.comm, k, owed) && NL.CapAt(s.nip, r, NL.Bound);
    LedgerKept(s, owed);
    CountedOnce(s.comm.books, k, r);
    if C.ClawbackId(k) !in s.comm.books.transfers { NothingMoved(s.comm.books, C.ClawbackId(k)); }
  }

  lemma {:induction false} CountedOnce(b: L.State, k: C.Key, r: SessionId)
    requires WellKept(b)
    ensures Moves(b.journal, C.PostId(k)) <= 1 && Moves(b.journal, C.ClawbackId(k)) <= 1 && Moves(b.journal, NipPost(r)) <= 1
  {
    assert OnceAt(b, C.PostId(k)) && OnceAt(b, C.ClawbackId(k)) && OnceAt(b, NipPost(r));
  }
}
