/** Recovery converges, captures succeed when nothing fails, and what a lost compensation write leads to. */
module PaymentRecovery {
  import opened Prelude
  import opened Ids
  import opened Payments
  import opened PaymentLaws
  import opened PaymentRuns
  import opened PaymentTheorems
  import L = Ledger
  import K = LedgerLaws

  /** No store write fails and the provider answers Verify. */
  predicate Quiet(env: Env)
  {
    !env.saveFault && !env.certFault && !env.finalFault && !env.compFault && env.verify.Says?
  }

  /** A quiet finish marks the payment captured when its post is on the ledger, compensated when it is not. */
  lemma {:induction false} FinishQuiet(w: World, p: Payment, env: Env)
    requires Inv(w) && Awaiting(w, p) && Quiet(env) && w.life == Forever
    ensures var v := Finish(w, p, env);
            && v.life == Forever && p.id in v.payments
            && v.payments[p.id].status
               == (if L.Post(w.books, p.hold, p.post, p.amount).1.Ok? then Captured else Compensated)
  {
    var (books, r) := L.Post(w.books, p.hold, p.post, p.amount);
    var w1 := Book(w, books);
    PostKeeps(w, p);
    if r.Ok? {
      FeeKeeps(w1, p);
      FeeForever(w1, p);
      AfterFeeQuiet(PostFeeLeg(w1, p).0, p, env);
    }
  }

  lemma {:induction false} AfterFeeQuiet(w: World, p: Payment, env: Env)
    requires Quiet(env) && w.life == Forever
    ensures var v := AfterFee(w, true, p, env);
            && v.life == Forever && v.books == w.books
            && v.payments == w.payments[p.id := p.(status := Captured, updatedAt := env.now)]
            && Cert(env.year, p.id) in v.certs
  {
  }

  /** What one quiet sweep does to the status of a payment. */
  predicate SweptTo(s: Status, t: Status)
  {
    match s
    case Captured => t == Settled
    case AwaitingPost => t in {Captured, Compensated}
    case CaptureInFlight => t in {Captured, Compensated, Failed}
    case Intent => t in {Intent, Expired}
    case PendingAuthorisation => t in {PendingAuthorisation, Expired}
    case _ => t == s
  }

  predicate Young(p: Payment, now: int)
  {
    p.status in {Intent, PendingAuthorisation} ==> now - p.updatedAt < INTENT_TTL
  }

  lemma {:induction false} InFlightQuiet(w: World, p: Payment, env: Env)
    requires Inv(w) && Stored(w, p) && p.status == CaptureInFlight && Quiet(env) && w.life == Forever
    ensures var v := ResolveInFlight(w, p, env);
            v.life == Forever && p.id in v.payments && v.payments[p.id].status in {Captured, Compensated, Failed}
  {
    if env.verify.status == AtCaptured {
      var q := AwaitingPostOf(p, env.verify.settled, env.now);
      assert At(w, p.id);
      AwaitAgrees(w, p, env.verify.settled, env.now);
      SaveKeeps(w, q, false);
      FinishQuiet(Save(w, q, false), q, env);
    }
  }

  lemma {:induction false} SweepOneQuiet(w: World, p: Payment, env: Env)
    requires Inv(w) && Stored(w, p) && Quiet(env) && w.life == Forever
    ensures var v := SweepOne(w, p, env);
            && v.life == Forever && p.id in v.payments && SweptTo(p.status, v.payments[p.id].status)
            && Young(v.payments[p.id], env.now)
  {
    hide Inv, Agrees, DisputeAgrees, Finish, ResolveInFlight, L.Void;
    RowAgrees(w, p.id);
    match p.status
    case Captured => CapturedPosted(w, p);
    case AwaitingPost =>
      AwaitingNamesPost(w, p);
      FinishQuiet(w, p, env);
    case Intent =>
    case PendingAuthorisation =>
    case CaptureInFlight => InFlightQuiet(w, p, env);
    case Failed => Released(w, p);
    case Compensated => Released(w, p);
    case _ =>
  }

  lemma {:induction false} CapturedPosted(w: World, p: Payment)
    requires Agrees(w, p) && p.status == Captured
    ensures PostLanded(w.books, p)
  {
  }

  ghost predicate QuietEnvs(envs: PaymentId -> Env, now: int)
  {
    forall id :: Quiet(envs(id)) && envs(id).now == now
  }

  /** The listing names every stored payment. */
  ghost predicate Complete(w: World, listed: seq<Payment>)
  {
    Listed(w, listed) && forall id :: id in w.payments ==> exists i :: 0 <= i < |listed| && listed[i].id == id
  }

  /** The row of a listed payment after a quiet sweep. */
  predicate SweptRow(v: World, p: Payment, now: int)
  {
    p.id in v.payments && SweptTo(p.status, v.payments[p.id].status) && Young(v.payments[p.id], now)
  }

  ghost predicate SweptRows(v: World, listed: seq<Payment>, now: int)
  {
    forall i :: 0 <= i < |listed| ==> SweptRow(v, listed[i], now)
  }

  /** Sweeping one more payment leaves the rows already swept alone. */
  lemma {:induction false} SweptMore(u: World, v: World, listed: seq<Payment>, now: int)
    requires listed != [] && SweptRows(u, listed[..|listed| - 1], now)
    requires forall i, j :: 0 <= i < j < |listed| ==> listed[i].id != listed[j].id
    requires LawfulAt(u, v, listed[|listed| - 1].id) && SweptRow(v, listed[|listed| - 1], now)
    ensures SweptRows(v, listed, now) && v.payments.Keys == u.payments.Keys
  {
    var n := |listed| - 1;
    forall i | 0 <= i < |listed| ensures SweptRow(v, listed[i], now) {
      if i < n {
        assert listed[..n][i] == listed[i];
        assert SweptRow(u, listed[..n][i], now);
      }
    }
  }

  lemma {:induction false} SweepQuiet(w: World, listed: seq<Payment>, envs: PaymentId -> Env, now: int)
    requires Inv(w) && Listed(w, listed) && QuietEnvs(envs, now) && w.life == Forever
    ensures var v := Sweep(w, listed, envs);
            Inv(v) && v.life == Forever && v.payments.Keys == w.payments.Keys && SweptRows(v, listed, now)
  {
    QuietNeverLoses(w, listed, envs, now);
    SweepKeeps(w, listed, envs);
    if listed != [] {
      var n := |listed| - 1;
      var before, p := listed[..n], listed[n];
      QuietNeverLoses(w, before, envs, now);
      SweepKeeps(w, before, envs);
      SweepQuiet(w, before, envs, now);
      SweepLast(w, Sweep(w, before, envs), listed, envs(p.id), now);
    }
  }

  /** Where no write fails no compensation is lost. */
  lemma {:induction false} QuietNeverLoses(w: World, listed: seq<Payment>, envs: PaymentId -> Env, now: int)
    requires QuietEnvs(envs, now)
    ensures !SomeRowLoses(w, listed, envs)
  {
    if listed != [] {
      QuietNeverLoses(w, listed[..|listed| - 1], envs, now);
      assert Quiet(envs(listed[|listed| - 1].id));
    }
  }

  lemma {:induction false} SweepLast(w: World, u: World, listed: seq<Payment>, env: Env, now: int)
    requires listed != [] && Listed(w, listed) && Inv(u) && u.life == Forever && Quiet(env) && env.now == now
    requires SameOutside(w, u, listed[..|listed| - 1]) && SweptRows(u, listed[..|listed| - 1], now)
    ensures var v := SweepOne(u, listed[|listed| - 1], env);
            v.life == Forever && v.payments.Keys == u.payments.Keys && SweptRows(v, listed, now)
  {
    var n := |listed| - 1;
    assert Stored(w, listed[n]);
    assert forall i :: 0 <= i < n ==> listed[..n][i].id != listed[n].id;
    SweepOneQuiet(u, listed[n], env);
    SweepOneLawful(u, listed[n], env);
    SweptMore(u, SweepOne(u, listed[n], env), listed, now);
  }

  /** A quiet sweep of every payment, row by row. */
  lemma {:induction false} SweepAllQuiet(w: World, listed: seq<Payment>, envs: PaymentId -> Env, now: int, id: PaymentId)
    requires Inv(w) && Complete(w, listed) && QuietEnvs(envs, now) && w.life == Forever && id in w.payments
    ensures var v := Sweep(w, listed, envs);
            && id in v.payments && SweptTo(w.payments[id].status, v.payments[id].status) && Young(v.payments[id], now)
  {
    SweepQuiet(w, listed, envs, now);
    var i :| 0 <= i < |listed| && listed[i].id == id;
    assert Stored(w, listed[i]) && SweptRow(Sweep(w, listed, envs), listed[i], now);
  }

  /** A payment on which a sweep at clock `now` has nothing to do. */
  predicate AtRest(p: Payment, now: int)
  {
    p.status !in {Captured, AwaitingPost, CaptureInFlight} && Young(p, now)
  }

  lemma {:induction false} RestSweep(w: World, listed: seq<Payment>, envs: PaymentId -> Env, now: int)
    requires Inv(w) && Listed(w, listed) && QuietEnvs(envs, now) && w.life == Forever
    requires forall i :: 0 <= i < |listed| ==> AtRest(listed[i], now)
    ensures var v := Sweep(w, listed, envs);
            v.payments == w.payments && v.books == w.books && v.certs == w.certs && v.life == Forever
  {
    hide Inv, SweepOne;
    if listed != [] {
      var n := |listed| - 1;
      var before, p := listed[..n], listed[n];
      RestSweep(w, before, envs, now);
      var u := Sweep(w, before, envs);
      assert Quiet(envs(p.id)) && envs(p.id).now == now;
      assert Stored(w, p);
      RowAgrees(w, p.id);
      RestOne(w, u, p, envs(p.id));
    }
  }

  lemma {:induction false} RestOne(w: World, u: World, p: Payment, env: Env)
    requires Stored(w, p) && Agrees(w, p) && AtRest(p, env.now)
    requires u.payments == w.payments && u.books == w.books && u.certs == w.certs && u.life == Forever
    ensures var v := SweepOne(u, p, env);
            v.payments == w.payments && v.books == w.books && v.certs == w.certs && v.life == Forever
  {
    hide Agrees;
    if p.status in {Failed, Compensated} { Released(w, p); }
  }

  /**
   Recovery converges: with a provider that answers and no faults, one sweep
   leaves nothing awaiting or in flight, the second nothing captured, and the
   third, at the second's clock reading, changes no payment, balance or certificate.
   */
  lemma {:induction false} RecoveryConverges(w: World, l1: seq<Payment>, l2: seq<Payment>, l3: seq<Payment>,
                                             e1: PaymentId -> Env, e2: PaymentId -> Env, e3: PaymentId -> Env,
                                             first: int, now: int)
    requires Inv(w) && w.life == Forever && QuietEnvs(e1, first) && QuietEnvs(e2, now) && QuietEnvs(e3, now)
    requires Complete(w, l1)
    requires Complete(Sweep(w, l1, e1), l2)
    requires Complete(Sweep(Sweep(w, l1, e1), l2, e2), l3)
    ensures var w1 := Sweep(w, l1, e1);
            var w2 := Sweep(w1, l2, e2);
            var w3 := Sweep(w2, l3, e3);
            && (forall id :: id in w1.payments ==> w1.payments[id].status !in {AwaitingPost, CaptureInFlight})
            && (forall id :: id in w2.payments ==> w2.payments[id].status !in {AwaitingPost, CaptureInFlight, Captured})
            && w3.payments == w2.payments && w3.books == w2.books && w3.certs == w2.certs
  {
    hide Inv, Sweep, QuietEnvs;
    var w1 := Sweep(w, l1, e1);
    var w2 := Sweep(w1, l2, e2);
    SweepQuiet(w, l1, e1, first);
    forall id | id in w1.payments ensures w1.payments[id].status !in {AwaitingPost, CaptureInFlight} {
      SweepAllQuiet(w, l1, e1, first, id);
    }
    SweepQuiet(w1, l2, e2, now);
    forall id | id in w2.payments
      ensures w2.payments[id].status !in {AwaitingPost, CaptureInFlight, Captured} && AtRest(w2.payments[id], now)
    {
      SweepAllQuiet(w1, l2, e2, now, id);
    }
    forall i | 0 <= i < |l3| ensures AtRest(l3[i], now) {
      assert Stored(w2, l3[i]);
    }
    RestSweep(w2, l3, e3, now);
  }

  // ---------------------------------------------------------------- progress

  /** With nothing failing, capturing an authorised payment whose hold is pending captures it in full. */
  lemma {:induction false} CaptureSucceeds(w: World, id: PaymentId, env: Env)
    requires Inv(w) && id in w.payments && w.payments[id].status == Authorised && w.life == Forever
    requires HoldPending(w.books, PsmIntent(id)) && PackCurrent(w.payments[id], env.eval)
    requires Quiet(env) && env.capture.Replied? && env.capture.captured
    ensures var v := Capture(w, id, env);
            && id in v.payments && v.payments[id].status == Captured
            && v.payments[id].fee == FeeOf(w.payments[id].amount, env.capture.settled)
  {
    hide Inv, Agrees, DisputeAgrees, Finish, L.Post;
    var p := w.payments[id];
    var q := AwaitingPostOf(p, env.capture.settled, env.now);
    var u := Save(w, q, false);
    RowAgrees(w, id);
    HoldNamed(w, p);
    AwaitKeeps(w, p, q);
    PostLandsNow(u, q);
    FinishQuiet(u, q, env);
    FinishWrites(u, q, env);
  }

  /** The post of an awaiting payment whose hold is pending is accepted. */
  lemma {:induction false} PostLandsNow(w: World, p: Payment)
    requires Inv(w) && Awaiting(w, p) && Alive(w) && HoldPending(w.books, p.hold)
    ensures var (books, r) := L.Post(w.books, p.hold, p.post, p.amount);
            r.Ok? && Inv(Book(w, books)) && Landed(Book(w, books), p.id)
  {
    hide At, Agrees, DisputeAgrees, L.Post;
    RowAgrees(w, p.id);
    PayerReady(w, p);
    PostAgrees(w, p);
    PostKeeps(w, p);
  }

  /** A capture that runs to its end answers with the payment exactly when it leaves it captured. */
  lemma {:induction false} CaptureAnswersIff(w: World, id: PaymentId, env: Env)
    requires w.life == Forever && id in w.payments && w.payments[id].id == id && w.payments[id].status == Authorised
    ensures var v := Capture(w, id, env);
            CaptureAnswers(w, id, env) <==> id in v.payments && v.payments[id].status == Captured
  {
    hide L.Post, PostFeeLeg, CompensatedBooks;
    if PackCurrent(w.payments[id], env.eval) && ChargeSeen(env).Charged? && !env.saveFault {
      var q := AwaitingPostOf(w.payments[id], ChargeSeen(env).settled, env.now);
      FinishAnswersIff(Save(w, q, false), q, env);
    }
  }

  lemma {:induction false} FinishAnswersIff(w: World, p: Payment, env: Env)
    requires w.life == Forever && p.id in w.payments && w.payments[p.id] == p && p.status == AwaitingPost
    ensures var v := Finish(w, p, env);
            FinishAnswers(w, p, env) <==> p.id in v.payments && v.payments[p.id].status == Captured
  {
    hide L.Post, PostFeeLeg, CompensatedBooks;
    var (books, r) := L.Post(w.books, p.hold, p.post, p.amount);
    var w1 := Book(w, books);
    FeeWrites(w1, p);
    FeeForever(w1, p);
    FeeCertifies(w1, p);
  }

  lemma {:induction false} FeeCertifies(w: World, p: Payment)
    ensures PostFeeLeg(w, p).0.certs == w.certs
  {
    hide L.Direct, Opened;
  }

  // ---------------------------------------------------------------- the excluded fault

  /** The books a compensation of a landed post leaves, and what the payment's other legs look like there. */
  lemma {:induction false} ReversedBooks(w: World, p: Payment)
    requires Inv(w) && Awaiting(w, p) && Landed(w, p.id)
    ensures var b := CompensatedBooks(w.books, p);
            && b.accounts == w.books.accounts && AccountsPlain(b) && Ready(b, Collections)
            && PsmCompensation(p.id) in b.transfers
            && LegAgrees(b, PsmCompensation(p.id), ReversalTransfer(p))
            && K.SameRecord(w.books, b, PsmIntent(p.id)) && K.SameRecord(w.books, b, PsmPost(p.id))
            && K.SameRecord(w.books, b, PsmFee(p.id))
  {
    RowAgrees(w, p.id);
    var op := L.DoDirect(PsmCompensation(p.id), ReversalTransfer(p));
    PayerReady(w, p);
    ReversalAgrees(w, p);
    ReversalLeg(w, p);
    StepPlain(w.books, op);
    hide Inv, DisputeAgrees, K.Moves, K.AmountMoved, L.Direct;
    K.StepFrame(w.books, op, PsmIntent(p.id));
    K.StepFrame(w.books, op, PsmPost(p.id));
    K.StepFrame(w.books, op, PsmFee(p.id));
  }

  /** Paid once, paid back once, and marked captured. */
  ghost predicate CapturedUnpaid(w: World, p: Payment)
  {
    && p.id in w.payments && w.payments[p.id].status == Captured && w.payments[p.id].id == p.id
    && LegAgrees(w.books, PsmPost(p.id), HoldTransfer(p).(pending := false)) && Landed(w, p.id)
    && LegAgrees(w.books, PsmCompensation(p.id), ReversalTransfer(p)) && Reversed(w, p.id)
  }

  /**
   Why `Loses` is excluded: if the certificate store fails after the post landed
   and the compensation's status write is lost as well, then the next quiet
   sweep marks the payment captured although its money was paid back.
   */
  lemma {:induction false} LostCompensationResurrects(w: World, p: Payment, bad: Env, good: Env)
    requires Inv(w) && Awaiting(w, p) && Landed(w, p.id) && w.life == Forever && bad.compFault && Quiet(good)
    ensures var v := SweepOne(Compensate(w, p, bad), p, good);
            CapturedUnpaid(v, p) && !Inv(v) && !Promised(v, v.payments[p.id])
  {
    hide Inv, CompensatedBooks, Finish, LegAgrees, K.SameRecord, HoldTransfer, ReversalTransfer, Promised;
    var u := Compensate(w, p, bad);
    LostBooks(w, p);
    ReplayedFinish(u, p, good);
    var v := Finish(u, p, good);
    assert v == SweepOne(u, p, good);
    LegFrame(u.books, v.books, PsmPost(p.id), HoldTransfer(p).(pending := false));
    LegFrame(u.books, v.books, PsmCompensation(p.id), ReversalTransfer(p));
    CapturedReversed(v, p);
  }

  lemma {:induction false} LegFrame(b: L.State, c: L.State, id: TransferId, t: L.Transfer)
    requires LegAgrees(b, id, t) && K.SameRecord(b, c, id)
    ensures LegAgrees(c, id, t) && (id in c.transfers <==> id in b.transfers)
  {
  }

  /** What a compensation that was not recorded leaves: both legs in place, and everything a replay asks for. */
  lemma {:induction false} LostBooks(w: World, p: Payment)
    requires Inv(w) && Awaiting(w, p) && Landed(w, p.id)
    ensures var b := CompensatedBooks(w.books, p);
            && LegAgrees(b, PsmPost(p.id), HoldTransfer(p).(pending := false)) && PsmPost(p.id) in b.transfers
            && LegAgrees(b, PsmCompensation(p.id), ReversalTransfer(p)) && PsmCompensation(p.id) in b.transfers
            && Replayable(b, p)
  {
    hide Inv, CompensatedBooks;
    RowAgrees(w, p.id);
    ReversedBooks(w, p);
  }

  /** The payment's post is on the ledger, its hold consumed, and its fee leg as it should be or open. */
  ghost predicate Replayable(b: L.State, p: Payment)
  {
    && p.post == PsmPost(p.id) && PostLanded(b, p)
    && p.hold in b.transfers && !b.transfers[p.hold].pending && b.transfers[p.hold].(pending := true) == HoldTransfer(p)
    && b.transfers[p.post] == HoldTransfer(p).(pending := false)
    && Ready(b, Collections) && AccountsPlain(b) && FeeSettled(b, p)
  }

  predicate FeeSettled(b: L.State, p: Payment)
  {
    p.fee > 0 && PsmFee(p.id) in b.transfers ==> b.transfers[PsmFee(p.id)] == FeeTransfer(p)
  }

  lemma {:induction false} CapturedReversed(v: World, p: Payment)
    requires CapturedUnpaid(v, p)
    ensures !Inv(v) && !Promised(v, v.payments[p.id])
  {
    assert !At(v, p.id);
  }

  /** Resuming a payment whose post is already on the ledger goes straight through to captured. */
  lemma {:induction false} ReplayedFinish(u: World, p: Payment, env: Env)
    requires Replayable(u.books, p) && u.life == Forever && Quiet(env) && p.status == AwaitingPost
    ensures var v := Finish(u, p, env);
            && p.id in v.payments && v.payments[p.id] == p.(status := Captured, updatedAt := env.now)
            && K.SameRecord(u.books, v.books, PsmCompensation(p.id)) && K.SameRecord(u.books, v.books, PsmPost(p.id))
  {
    hide K.Moves, K.AmountMoved;
    var (books, r) := L.Post(u.books, p.hold, p.post, p.amount);
    assert books == u.books && r.Ok?;
    FeeReplay(u, p);
    FeeForever(u, p);
    AfterFeeQuiet(PostFeeLeg(u, p).0, p, env);
  }

  lemma {:induction false} FeeReplay(u: World, p: Payment)
    requires u.life == Forever && Ready(u.books, Collections) && AccountsPlain(u.books) && FeeSettled(u.books, p)
    ensures PostFeeLeg(u, p).1
    ensures K.SameRecord(u.books, PostFeeLeg(u, p).0.books, PsmCompensation(p.id))
    ensures K.SameRecord(u.books, PostFeeLeg(u, p).0.books, PsmPost(p.id))
  {
    hide L.Direct, FeeTransfer;
    if p.fee > 0 {
      assert EnsureAccount(u, Collections) == u;
      assert PlainAt(u.books, FeeIncome);
      if FeeIncome !in u.books.accounts { K.OpenSingle(u.books, FeeIncome, PSM_ACCOUNT); }
      FeeLands(u.books, EnsureAccount(u, FeeIncome).books, p);
    }
  }

  lemma {:induction false} FeeLands(a: L.State, b: L.State, p: Payment)
    requires b.transfers == a.transfers && b.journal == a.journal && p.fee > 0 && FeeSettled(a, p)
    requires Ready(b, Collections) && Ready(b, FeeIncome)
    ensures var (c, r) := L.Direct(b, PsmFee(p.id), FeeTransfer(p));
            r.Ok? && K.SameRecord(a, c, PsmCompensation(p.id)) && K.SameRecord(a, c, PsmPost(p.id))
  {
    hide K.Moves, K.AmountMoved;
    K.StepFrame(b, L.DoDirect(PsmFee(p.id), FeeTransfer(p)), PsmCompensation(p.id));
    K.StepFrame(b, L.DoDirect(PsmFee(p.id), FeeTransfer(p)), PsmPost(p.id));
  }

  // ---------------------------------------------------------------- a run that ends there

  /** With nothing failing, a first payment of a levy is stored with its hold pending. */
  lemma {:induction false} IntentSucceeds(w: World, req: IntentRequest, id: PaymentId, env: Env)
    requires Inv(w) && FreshId(w, id) && w.life == Forever && req.tin != "" && req.state != "" && !env.saveFault
    requires !DuplicateLevy(w.payments, req.tin, PeriodOf(req, env), req.monthly)
    requires !env.eval.exempt && !env.eval.graduate && LevyOf(env.eval, req.monthly) > 0
    ensures var v := CreateIntent(w, req, id, true, true, env);
            && Inv(v) && v == w.(books := v.books, payments := v.payments)
            && v.payments == w.payments[id := NewPayment(id, req, env)] && HoldPending(v.books, PsmIntent(id))
            && (PsmDisputeHold(id) in v.books.transfers <==> PsmDisputeHold(id) in w.books.transfers)
  {
    hide Inv, EnsureAccount, L.Hold, HoldTransfer;
    IntentKeeps(w, req, id, true, true, env);
    var p := NewPayment(id, req, env);
    EnsureKeeps(w, Payer(p.tin));
    var w0 := EnsureAccount(w, Payer(p.tin));
    EnsureKeeps(w0, Collections);
    var w1 := EnsureAccount(w0, Collections);
    InvPlain(w1, Payer(p.tin));
    InvPlain(w1, Collections);
    EnsureOnlyBooks(w, Payer(p.tin));
    EnsureOnlyBooks(w0, Collections);
    IntentHoldLands(w1.books, p);
  }

  lemma {:induction false} InvPlain(w: World, a: AccountId)
    requires Inv(w)
    ensures PlainAt(w.books, a)
  {
  }

  lemma {:induction false} EnsureOnlyBooks(w: World, a: AccountId)
    requires w.life == Forever
    ensures EnsureAccount(w, a) == w.(books := EnsureAccount(w, a).books)
  {
    hide Opened;
  }

  lemma {:induction false} IntentHoldLands(b: L.State, p: Payment)
    requires Ready(b, Payer(p.tin)) && Ready(b, Collections) && p.hold !in b.transfers && p.hold != NoTransfer && p.amount > 0
    ensures var (books, r) := L.Hold(b, p.hold, HoldTransfer(p));
            && r.Ok? && HoldPending(books, p.hold)
            && (PsmDisputeHold(p.id) in books.transfers <==> PsmDisputeHold(p.id) in b.transfers || p.hold == PsmDisputeHold(p.id))
  {
  }

  const LEVY := Evaluation(false, false, 10, 0, 0, "v1")
  const REQUEST := IntentRequest("t", "s", "2024", false, "p")
  const GOOD := Env(0, 2024, LEVY, AuthApproved("r"), Replied(true, 10), Says(AtCaptured, 10, 10, true), Says(AtCaptured, 10, 10, true),
                    true, true, false, false, false, false, false)
  const BAD := GOOD.(certFault := true, compFault := true)

  const CHARGED := AwaitingPostOf(NewPayment("1", REQUEST, GOOD).(ref := "r", status := Authorised), 10, 0)

  /** An authorised first payment. */
  lemma {:induction false} AuthorisedFirst()
    ensures var w1 := Step(EMPTY_WORLD, DoIntent(REQUEST, "1", true, true, GOOD), Forever);
            var w2 := Step(w1, DoAuthorise("1", GOOD), Forever);
            && FreshId(EMPTY_WORLD, "1") && Inv(w2) && w2 == EMPTY_WORLD.(books := w2.books, payments := w2.payments)
            && PsmDisputeHold("1") !in w2.books.transfers
            && w2.payments == map["1" := NewPayment("1", REQUEST, GOOD).(ref := "r", status := Authorised)]
            && HoldPending(w2.books, PsmIntent("1"))
  {
    hide CreateIntent, Inv;
    EmptyWorldInv();
    IntentSucceeds(EMPTY_WORLD, REQUEST, "1", GOOD);
    var w1 := Step(EMPTY_WORLD, DoIntent(REQUEST, "1", true, true, GOOD), Forever);
    assert w1 == CreateIntent(EMPTY_WORLD, REQUEST, "1", true, true, GOOD);
    AuthoriseKeeps(w1, "1", GOOD);
  }

  /** Capturing it while the certificate store and the compensation's write fail. */
  lemma {:induction false} CaptureGoesWrong(w: World) returns (x: World)
    requires Inv(w) && w.life == Forever && w.certs == {}
    requires w.payments == map["1" := NewPayment("1", REQUEST, GOOD).(ref := "r", status := Authorised)]
    requires HoldPending(w.books, PsmIntent("1"))
    ensures CaptureLoses(w, "1", BAD) && Capture(w, "1", BAD) == Compensate(x, CHARGED, BAD)
    ensures Inv(x) && Awaiting(x, CHARGED) && Landed(x, "1") && x.life == Forever
  {
    hide Inv, Agrees, DisputeAgrees, Compensate, L.Post;
    var p, q := w.payments["1"], CHARGED;
    assert Stored(w, p) && FeeOf(10, 10) == 0;
    AwaitKeeps(w, p, q);
    var u := Save(w, q, false);
    PostLandsNow(u, q);
    var (books, r) := L.Post(u.books, q.hold, q.post, q.amount);
    x := Book(u, books);
    assert Finish(u, q, BAD) == Compensate(x, q, BAD);
    assert Capture(w, "1", BAD) == CaptureTail(w, p, 10, BAD) == Finish(u, q, BAD);
  }

  /**
   Four calls from the empty world: intent, authorise, a capture that loses its
   compensation, and one quiet sweep. The payment is captured and its money was paid back.
   */
  lemma {:induction false} CapturedButPaidBack() returns (before: seq<Turn>, capture: Turn, sweep: Turn)
    ensures AdmissibleRun(EMPTY_WORLD, before) && capture.op == DoCapture("1", BAD) && CaptureLoses(After(EMPTY_WORLD, before), "1", BAD)
    ensures var w := After(EMPTY_WORLD, before + [capture]);
            sweep.op.DoSweep? && Listed(w, sweep.op.listed) && !SomeRowLoses(w, sweep.op.listed, sweep.op.envs)
    ensures CapturedUnpaid(After(EMPTY_WORLD, before + [capture] + [sweep]), CHARGED)
  {
    var t1 := Turn(DoIntent(REQUEST, "1", true, true, GOOD), Forever);
    var t2 := Turn(DoAuthorise("1", GOOD), Forever);
    capture := Turn(DoCapture("1", BAD), Forever);
    AuthorisedFirst();
    hide Inv, CapturedUnpaid, CreateIntent, Authorise, Capture, Compensate, SweepOne, CaptureLoses;
    AfterThen(EMPTY_WORLD, [], t1);
    AfterThen(EMPTY_WORLD, [] + [t1], t2);
    before := [] + [t1] + [t2];
    var w2 := After(EMPTY_WORLD, before);
    var x := CaptureGoesWrong(w2);
    AfterThen(EMPTY_WORLD, before, capture);
    var w3 := Compensate(x, CHARGED, BAD);
    assert After(EMPTY_WORLD, before + [capture]) == w3 by { assert w2.(life := Forever) == w2; }
    sweep := Turn(DoSweep([CHARGED], _ => GOOD), Forever);
    AfterThen(EMPTY_WORLD, before + [capture], sweep);
    LostRow(x);
    SweepsOne(w3, CHARGED, _ => GOOD);
    LostCompensationResurrects(x, CHARGED, BAD, GOOD);
  }

  lemma {:induction false} AfterThen(w: World, turns: seq<Turn>, t: Turn)
    ensures After(w, turns + [t]) == Step(After(w, turns), t.op, t.life)
    ensures AdmissibleRun(w, turns) && Admissible(After(w, turns), t.op, t.life) ==> AdmissibleRun(w, turns + [t])
  {
    assert (turns + [t])[..|turns|] == turns;
  }

  lemma {:induction false} LostRow(x: World)
    requires Awaiting(x, CHARGED) && x.life == Forever
    ensures Awaiting(Compensate(x, CHARGED, BAD), CHARGED) && Compensate(x, CHARGED, BAD).life == Forever
  {
  }

  lemma {:induction false} SweepsOne(w: World, p: Payment, envs: PaymentId -> Env)
    requires !envs(p.id).compFault
    ensures Sweep(w, [p], envs) == SweepOne(w, p, envs(p.id)) && !SomeRowLoses(w, [p], envs)
  {
    assert [p][..0] == [] && Sweep(w, [p][..0], envs) == w;
    assert !SomeRowLoses(w, [p][..0], envs);
  }
}
