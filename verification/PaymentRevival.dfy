/**
 What a half-recorded dispute leads to: the dispute is stored, the payment's own mark
 is lost, the payment is compensated, and winning the dispute brings it back.
 */
module PaymentRevival {
  import opened Prelude
  import opened Ids
  import opened Payments
  import opened PaymentLaws
  import opened PaymentRuns
  import opened PaymentTheorems
  import opened PaymentRecovery
  import L = Ledger
  import K = LedgerLaws

  // ---------------------------------------------------------------- the revival

  /** A compensated payment has everything a replay of its post asks for, before and after its dispute hold is released. */
  lemma {:induction false} StillReplayable(w: World, p: Payment, q: Payment)
    requires Inv(w) && Stored(w, p) && p.status == Compensated && Landed(w, p.id) && q == p.(status := q.status, updatedAt := q.updatedAt)
    ensures var b := L.Void(w.books, PsmDisputeHold(p.id)).0;
            && Replayable(b, q) && PsmPost(p.id) in b.transfers && PsmCompensation(p.id) in b.transfers
            && LegAgrees(b, PsmPost(p.id), HoldTransfer(q).(pending := false))
            && LegAgrees(b, PsmCompensation(p.id), ReversalTransfer(q))
  {
    hide At, L.Void, K.WellKept;
    var op := L.DoVoid(PsmDisputeHold(p.id));
    RowAgrees(w, p.id);
    PayerReady(w, p);
    CaptureLegsStay(w.books, op, p.id);
    StepPlain(w.books, op);
  }

  /**
   Winning the half-recorded dispute of a payment whose post was reversed marks it
   awaiting its post again, and the next quiet sweep captures it without its money.
   */
  lemma {:induction false} RevivedResurrects(w: World, p: Payment, env: Env, events: set<EventId>, good: Env)
    requires Inv(w) && Stored(w, p) && Landed(w, p.id) && w.life == Forever && Quiet(good)
    requires Revives(w, p.id, Some(Won), env)
    ensures var v := ResolveDispute(w, p.id, Some(Won), env).0.(events := events);
            && p.id in v.payments && v.payments[p.id] == p.(status := AwaitingPost, updatedAt := env.now) && v.life == Forever
            && var u := SweepOne(v, v.payments[p.id], good);
               CapturedUnpaid(u, v.payments[p.id]) && !Inv(u) && !Promised(u, u.payments[p.id])
  {
    hide Inv, Agrees, LegAgrees, L.Void, Finish, K.SameRecord, HoldTransfer, ReversalTransfer, Promised, Replayable;
    RowAgrees(w, p.id);
    var v := ResolveDispute(w, p.id, Some(Won), env).0.(events := events);
    var q := p.(status := AwaitingPost, updatedAt := env.now);
    assert w.disputes[p.id].prior == AwaitingPost && w.disputes[p.id].hold == PsmDisputeHold(p.id);
    assert v.payments[p.id] == q && v.books == L.Void(w.books, PsmDisputeHold(p.id)).0;
    StillReplayable(w, p, q);
    ReplayNamed(v.books, q);
    ReplayedFinish(v, q, good);
    var u := Finish(v, q, good);
    assert u == SweepOne(v, q, good);
    LegFrame(v.books, u.books, PsmPost(p.id), HoldTransfer(q).(pending := false));
    LegFrame(v.books, u.books, PsmCompensation(p.id), ReversalTransfer(q));
    CapturedReversed(u, q);
  }

  lemma {:induction false} ReplayNamed(b: L.State, p: Payment)
    requires Replayable(b, p)
    ensures p.post == PsmPost(p.id)
  {
  }

  // ---------------------------------------------------------------- the way there

  /** A dispute whose record is stored while the mark of the payment is lost. */
  lemma {:induction false} HalfOpened(w: World, id: PaymentId, env: Env)
    requires Inv(w) && w.life == Forever && id in w.payments && id !in w.disputes && Disputable(w.payments[id].status)
    requires PsmDisputeHold(id) !in w.books.transfers && !env.saveFault && env.finalFault
    ensures var (v, ok) := OpenDispute(w, id, env);
            && !ok && Inv(v) && v == w.(books := v.books, disputes := v.disputes)
            && v.disputes == w.disputes[id := Dispute(w.payments[id].amount, Open, w.payments[id].status, PsmDisputeHold(id))]
            && HoldPending(v.books, PsmDisputeHold(id))
            && K.SameRecord(w.books, v.books, PsmIntent(id)) && K.SameRecord(w.books, v.books, PsmPost(id))
  {
    hide Inv, EnsureAccount, L.Hold, DisputeTransfer, K.SameRecord;
    var p := w.payments[id];
    RowAgrees(w, id);
    OpenDisputeKeeps(w, id, env);
    EnsureKeeps(w, Collections);
    var w0 := EnsureAccount(w, Collections);
    EnsureKeeps(w0, DisputeHold);
    var w1 := EnsureAccount(w0, DisputeHold);
    EnsureOnlyBooks(w, Collections);
    EnsureOnlyBooks(w0, DisputeHold);
    InvPlain(w1, Collections);
    InvPlain(w1, DisputeHold);
    AmountPositive(w, p);
    DisputeHoldLands(w.books, w1.books, p);
  }

  lemma {:induction false} AmountPositive(w: World, p: Payment)
    requires Agrees(w, p)
    ensures p.amount > 0
  {
  }

  lemma {:induction false} DisputeHoldLands(a: L.State, b: L.State, p: Payment)
    requires Ready(b, Collections) && Ready(b, DisputeHold) && PsmDisputeHold(p.id) !in b.transfers && p.amount > 0
    requires b.transfers == a.transfers && b.journal == a.journal
    ensures var (c, r) := L.Hold(b, PsmDisputeHold(p.id), DisputeTransfer(p));
            && r.Ok? && HoldPending(c, PsmDisputeHold(p.id))
            && K.SameRecord(a, c, PsmIntent(p.id)) && K.SameRecord(a, c, PsmPost(p.id))
  {
    hide K.Moves, K.AmountMoved;
    var op := L.DoHold(PsmDisputeHold(p.id), DisputeTransfer(p));
    K.StepFrame(b, op, PsmIntent(p.id));
    K.StepFrame(b, op, PsmPost(p.id));
  }

  /** A sweep that posts an awaiting payment, cannot certify it, and compensates it on the record. */
  lemma {:induction false} SweptBack(w: World, p: Payment, env: Env)
    requires Inv(w) && Awaiting(w, p) && w.life == Forever && HoldPending(w.books, p.hold) && p.fee == 0
    requires p.post == PsmPost(p.id) && IssueFails(w, p, env) && !env.compFault
    ensures var v := SweepOne(w, p, env);
            && Inv(v) && v.payments == w.payments[p.id := p.(status := Compensated, updatedAt := env.now)]
            && v.disputes == w.disputes && v.events == w.events && v.life == Forever && Landed(v, p.id)
            && K.SameRecord(w.books, v.books, PsmDisputeHold(p.id))
  {
    hide Inv, L.Post, CompensatedBooks, K.SameRecord, Agrees, DisputeAgrees, Loses;
    RowAgrees(w, p.id);
    HoldNamed(w, p);
    NeverLoses(w, p, env);
    PostLandsNow(w, p);
    SweepOneKeeps(w, p, env);
    var books := L.Post(w.books, p.hold, p.post, p.amount).0;
    var w1 := Book(w, books);
    PostKeeps(w, p);
    assert SweepOne(w, p, env) == Compensate(Issue(w1, p, env), p, env);
    K.StepFrame(w.books, L.DoPost(p.hold, p.post, p.amount), PsmDisputeHold(p.id));
    LandedStays(w1, p);
    SameRecordThen(w.books, books, CompensatedBooks(books, p), PsmDisputeHold(p.id));
  }

  lemma {:induction false} NeverLoses(w: World, p: Payment, env: Env)
    requires p.status == AwaitingPost && !env.compFault
    ensures !SweepLoses(w, p, env)
  {
  }

  lemma {:induction false} SameRecordThen(a: L.State, b: L.State, c: L.State, id: TransferId)
    requires K.SameRecord(a, b, id) && K.SameRecord(b, c, id)
    ensures K.SameRecord(a, c, id)
  {
  }

  /** A compensation leaves the post and the dispute hold on the ledger. */
  lemma {:induction false} LandedStays(w: World, p: Payment)
    requires Inv(w) && Awaiting(w, p) && Landed(w, p.id)
    ensures var b := CompensatedBooks(w.books, p);
            PsmPost(p.id) in b.transfers && K.SameRecord(w.books, b, PsmDisputeHold(p.id))
  {
    hide At, L.Direct, DisputeAgreesOn;
    RowAgrees(w, p.id);
    PayerReady(w, p);
    ReversalAgrees(w, p);
    var op := L.DoDirect(PsmCompensation(p.id), ReversalTransfer(p));
    K.StepFrame(w.books, op, PsmPost(p.id));
    K.StepFrame(w.books, op, PsmDisputeHold(p.id));
  }

  // ---------------------------------------------------------------- a run that ends there

  const HALF := GOOD.(finalFault := true)
  const UNCERTIFIED := GOOD.(certFault := true)

  function Hook(event: Event, outcome: Option<Outcome>): Webhook
  {
    Webhook("p", "r", event, "1", 0, true, outcome)
  }

  /** The capture dies once the point of no return is stored. */
  lemma {:induction false} DiesAwaiting(w: World)
    requires Inv(w) && w.life == Forever
    requires w.payments == map["1" := NewPayment("1", REQUEST, GOOD).(ref := "r", status := Authorised)]
    ensures var v := Step(w, DoCapture("1", GOOD), For(1));
            && Admissible(w, DoCapture("1", GOOD), For(1)) && Inv(v)
            && v == w.(payments := map["1" := CHARGED], life := For(0))
  {
    hide Inv, Finish, Compensate;
    var u := w.(life := For(1));
    assert FeeOf(10, 10) == 0;
    StepKeeps(w, DoCapture("1", GOOD), For(1));
    DeadTail(Save(u, CHARGED, false), CHARGED, GOOD);
    assert Capture(u, "1", GOOD) == CaptureTail(u, u.payments["1"], 10, GOOD);
  }

  lemma {:induction false} OpensHalf(w: World)
    requires Inv(w) && w.payments == map["1" := CHARGED] && w.disputes == map[] && w.events == {} && w.certs == {}
    requires HoldPending(w.books, PsmIntent("1")) && PsmDisputeHold("1") !in w.books.transfers
    ensures var op := DoWebhook(Hook(DisputeCreate, None), "1", HALF);
            var v := Step(w, op, Forever);
            && Admissible(w, op, Forever) && Inv(v) && v.payments == w.payments && v.events == {} && v.certs == {} && v.life == Forever
            && v.disputes == map["1" := Dispute(10, Open, AwaitingPost, PsmDisputeHold("1"))]
            && HoldPending(v.books, PsmIntent("1")) && HoldPending(v.books, PsmDisputeHold("1"))
  {
    hide Inv, OpenDispute, K.Moves, K.AmountMoved;
    var u := w.(life := Forever);
    SpendKeeps(w, Forever);
    HalfOpened(u, "1", HALF);
    assert HandleWebhook(u, Hook(DisputeCreate, None), "1", HALF) == OpenDispute(u, "1", HALF).0;
  }

  lemma {:induction false} SweepsBack(w: World)
    requires Inv(w) && w.payments == map["1" := CHARGED] && w.certs == {} && w.events == {}
    requires w.disputes == map["1" := Dispute(10, Open, AwaitingPost, PsmDisputeHold("1"))]
    requires HoldPending(w.books, PsmIntent("1")) && HoldPending(w.books, PsmDisputeHold("1"))
    ensures var op := DoSweep([CHARGED], _ => UNCERTIFIED);
            var v := Step(w, op, Forever);
            && Admissible(w, op, Forever) && Inv(v) && v.payments == map["1" := CHARGED.(status := Compensated)]
            && v.disputes == w.disputes && v.events == {} && v.life == Forever && Landed(v, "1")
            && HoldPending(v.books, PsmDisputeHold("1"))
  {
    hide Inv, SweepOne, K.Moves, K.AmountMoved;
    var u := w.(life := Forever);
    SpendKeeps(w, Forever);
    SweptBack(u, CHARGED, UNCERTIFIED);
    SweepsOne(u, CHARGED, _ => UNCERTIFIED);
    assert Listed(w, [CHARGED]);
  }

  /**
   Seven calls from the empty world: intent, authorise, a capture that dies, a
   half-recorded dispute, a sweep that compensates, the dispute won, and one quiet
   sweep. The payment is captured and its money was paid back.
   */
  lemma {:induction false} WonDisputeRevives() returns (before: seq<Turn>, won: Turn, sweep: Turn)
    ensures AdmissibleRun(EMPTY_WORLD, before) && won.op.DoWebhook? && sweep.op.DoSweep?
    ensures var w := After(EMPTY_WORLD, before);
            Revives(w.(life := Forever), "1", won.op.hook.outcome, won.op.env)
    ensures var v := After(EMPTY_WORLD, before + [won]);
            Listed(v, sweep.op.listed) && !SomeRowLoses(v, sweep.op.listed, sweep.op.envs)
    ensures CapturedUnpaid(After(EMPTY_WORLD, before + [won] + [sweep]), CHARGED)
  {
    var t1 := Turn(DoIntent(REQUEST, "1", true, true, GOOD), Forever);
    var t2 := Turn(DoAuthorise("1", GOOD), Forever);
    var t3 := Turn(DoCapture("1", GOOD), For(1));
    var t4 := Turn(DoWebhook(Hook(DisputeCreate, None), "1", HALF), Forever);
    var t5 := Turn(DoSweep([CHARGED], _ => UNCERTIFIED), Forever);
    AuthorisedFirst();
    hide Inv, CapturedUnpaid, CreateIntent, Authorise, Capture, HandleWebhook, Sweep, CaptureLoses, HookLoses, SomeRowLoses;
    AfterThen(EMPTY_WORLD, [], t1);
    AfterThen(EMPTY_WORLD, [] + [t1], t2);
    var w2 := After(EMPTY_WORLD, [] + [t1] + [t2]);
    DiesAwaiting(w2);
    AfterThen(EMPTY_WORLD, [] + [t1] + [t2], t3);
    var w3 := After(EMPTY_WORLD, [] + [t1] + [t2] + [t3]);
    OpensHalf(w3);
    AfterThen(EMPTY_WORLD, [] + [t1] + [t2] + [t3], t4);
    var w4 := After(EMPTY_WORLD, [] + [t1] + [t2] + [t3] + [t4]);
    SweepsBack(w4);
    AfterThen(EMPTY_WORLD, [] + [t1] + [t2] + [t3] + [t4], t5);
    before := [] + [t1] + [t2] + [t3] + [t4] + [t5];
    won := Turn(DoWebhook(Hook(DisputeResolve, Some(Won)), "1", GOOD), Forever);
    AfterThen(EMPTY_WORLD, before, won);
    sweep := Turn(DoSweep([CHARGED], _ => GOOD), Forever);
    AfterThen(EMPTY_WORLD, before + [won], sweep);
    EndsCaptured(After(EMPTY_WORLD, before), After(EMPTY_WORLD, before + [won]));
  }

  lemma {:induction false} EndsCaptured(w: World, v: World)
    requires Inv(w) && w.life == Forever && w.payments == map["1" := CHARGED.(status := Compensated)] && Landed(w, "1")
    requires w.disputes == map["1" := Dispute(10, Open, AwaitingPost, PsmDisputeHold("1"))] && w.events == {}
    requires HoldPending(w.books, PsmDisputeHold("1"))
    requires v == Step(w, DoWebhook(Hook(DisputeResolve, Some(Won)), "1", GOOD), Forever)
    ensures Revives(w, "1", Some(Won), GOOD)
    ensures Listed(v, [CHARGED]) && !SomeRowLoses(v, [CHARGED], _ => GOOD)
    ensures CapturedUnpaid(Step(v, DoSweep([CHARGED], _ => GOOD), Forever), CHARGED)
  {
    hide Inv, SweepOne, CapturedUnpaid, SomeRowLoses, HandleWebhook, ResolveDispute, L.Void;
    var p := CHARGED.(status := Compensated);
    VoidsPending(w.books, PsmDisputeHold("1"));
    assert Revives(w, "1", Some(Won), GOOD);
    RevivedResurrects(w, p, GOOD, v.events, GOOD);
    assert w.(life := Forever) == w;
    WonHook(w);
    assert p.(status := AwaitingPost, updatedAt := GOOD.now) == CHARGED;
    SweepsOne(v, CHARGED, _ => GOOD);
    assert v.(life := Forever) == v;
  }

  /** The webhook that reports the dispute won does what ResolveDispute does, and is marked processed. */
  lemma {:induction false} WonHook(w: World)
    requires w.life == Forever && w.events == {} && Revives(w, "1", Some(Won), GOOD)
    ensures var v := HandleWebhook(w, Hook(DisputeResolve, Some(Won)), "1", GOOD);
            v == ResolveDispute(w, "1", Some(Won), GOOD).0.(events := v.events)
  {
    hide Capture, Void, OpenDispute, ValueVerified, L.Void;
  }

  lemma {:induction false} VoidsPending(b: L.State, hold: TransferId)
    requires HoldPending(b, hold)
    ensures L.Void(b, hold).1.Ok?
  {
  }
}
