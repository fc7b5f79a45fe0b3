/** The promises of the payment saga, over whole runs. */
module PaymentTheorems {
  import opened Prelude
  import opened Ids
  import opened Payments
  import opened PaymentLaws
  import opened PaymentRuns
  import L = Ledger
  import K = LedgerLaws

  // ---------------------------------------------------------------- lawful status changes

  predicate Absorbing(s: Status)
  {
    s in {Failed, Voided, Expired, Compensated, ChargedBack}
  }

  /** The payment has reached captured_awaiting_post. */
  predicate PastCapture(s: Status)
  {
    s in {AwaitingPost, Captured, Settled, Disputed, ChargedBack, Compensated}
  }

  /** What one operation may do to a payment record. */
  predicate Lawful(p: Payment, q: Payment)
  {
    && q == p.(status := q.status, post := q.post, fee := q.fee, ref := q.ref, updatedAt := q.updatedAt)
    && (Absorbing(p.status) ==> q.status == p.status)
    && (PastCapture(p.status) ==> PastCapture(q.status))
  }

  /** At most payment `id` changed, and lawfully. */
  ghost predicate LawfulAt(w: World, v: World, id: PaymentId)
  {
    v.payments == w.payments
    || (&& id in w.payments && id in v.payments && v.payments == w.payments[id := v.payments[id]]
        && Lawful(w.payments[id], v.payments[id]))
  }

  lemma {:induction false} CompensateWrites(w: World, p: Payment, env: Env)
    ensures var v := Compensate(w, p, env);
            || v.payments == w.payments
            || v.payments == w.payments[p.id := p.(status := Compensated, updatedAt := env.now)]
  {
  }

  /** The only payment records Finish may write. */
  ghost predicate Finishes(before: map<PaymentId, Payment>, after: map<PaymentId, Payment>, p: Payment, now: int)
  {
    || after == before
    || after == before[p.id := p.(status := Captured, updatedAt := now)]
    || after == before[p.id := p.(status := Compensated, updatedAt := now)]
  }

  lemma {:induction false} AfterFeeWrites(w: World, feeOk: bool, p: Payment, env: Env)
    ensures Finishes(w.payments, AfterFee(w, feeOk, p, env).payments, p, env.now)
  {
    CompensateWrites(w, p, env);
    CompensateWrites(Issue(w, p, env), p, env);
    assert Issue(w, p, env).payments == w.payments;
    SaveWrites(Issue(w, p, env), p.(status := Captured, updatedAt := env.now), env.finalFault);
  }

  lemma {:induction false} FeeWrites(w: World, p: Payment)
    ensures PostFeeLeg(w, p).0.payments == w.payments
  {
    EnsureWrites(w, Collections);
    EnsureWrites(EnsureAccount(w, Collections), FeeIncome);
  }

  lemma {:induction false} AfterPostWrites(w: World, posted: bool, p: Payment, env: Env)
    ensures Finishes(w.payments, AfterPost(w, posted, p, env).payments, p, env.now)
  {
    FeeWrites(w, p);
    AfterFeeWrites(PostFeeLeg(w, p).0, PostFeeLeg(w, p).1, p, env);
  }

  lemma {:induction false} FinishWrites(w: World, p: Payment, env: Env)
    ensures Finishes(w.payments, Finish(w, p, env).payments, p, env.now)
  {
    var (books, r) := L.Post(w.books, p.hold, p.post, p.amount);
    AfterPostWrites(Book(w, books), r.Ok?, p, env);
  }

  /** Saving the awaiting form of a payment and finishing it is lawful. */
  lemma {:induction false} AwaitThenFinish(w: World, u: World, v: World, p: Payment, q: Payment, now: int)
    requires Stored(w, p) && p.status in {Authorised, CaptureInFlight}
    requires q == p.(status := AwaitingPost, post := q.post, fee := q.fee, updatedAt := q.updatedAt)
    requires u.payments == w.payments || u.payments == w.payments[p.id := q]
    requires Finishes(u.payments, v.payments, q, now)
    ensures LawfulAt(w, v, p.id)
  {
  }

  lemma {:induction false} SaveWrites(w: World, p: Payment, fault: bool)
    ensures Save(w, p, fault).payments == w.payments || Save(w, p, fault).payments == w.payments[p.id := p]
  {
  }

  lemma {:induction false} TailLawful(w: World, p: Payment, settled: nat, env: Env)
    requires Stored(w, p) && p.status == Authorised
    ensures LawfulAt(w, CaptureTail(w, p, settled, env), p.id)
  {
    var q := AwaitingPostOf(p, settled, env.now);
    var u := Save(w, q, env.saveFault);
    SaveWrites(w, q, env.saveFault);
    if env.saveFault {
      CompensateWrites(u, q, env);
      AwaitThenFinish(w, u, Compensate(u, q, env), p, q, env.now);
    } else {
      FinishWrites(u, q, env);
      AwaitThenFinish(w, u, Finish(u, q, env), p, q, env.now);
    }
  }

  lemma {:induction false} SaveLawful(w: World, v: World, q: Payment, fault: bool)
    requires v.payments == w.payments && q.id in w.payments && Lawful(w.payments[q.id], q)
    ensures LawfulAt(w, Save(v, q, fault), q.id)
  {
  }

  lemma {:induction false} ReleaseWrites(w: World, hold: TransferId)
    ensures Release(w, hold).payments == w.payments
  {
  }

  lemma {:induction false} FailLawful(w: World, p: Payment, q: Payment, fault: bool)
    requires Stored(w, p) && q.id == p.id && Lawful(p, q)
    ensures LawfulAt(w, Save(Release(w, p.hold), q, fault), p.id)
  {
    ReleaseWrites(w, p.hold);
    SaveLawful(w, Release(w, p.hold), q, fault);
  }

  lemma {:induction false} CaptureLawful(w: World, id: PaymentId, env: Env)
    requires id in w.payments ==> w.payments[id].id == id
    ensures LawfulAt(w, Capture(w, id, env), id)
  {
    if id in w.payments && w.payments[id].status == Authorised {
      var p := w.payments[id];
      hide CaptureTail, Save, Release;
      SaveLawful(w, w, p.(status := CaptureInFlight, updatedAt := env.now), env.saveFault);
      FailLawful(w, p, p.(status := Failed, updatedAt := env.now), env.finalFault);
      if ChargeSeen(env).Charged? { TailLawful(w, p, ChargeSeen(env).settled, env); }
    }
  }

  lemma {:induction false} AuthoriseLawful(w: World, id: PaymentId, env: Env)
    requires id in w.payments ==> w.payments[id].id == id
    ensures LawfulAt(w, Authorise(w, id, env), id)
  {
    if id in w.payments && w.payments[id].status == PendingAuthorisation && !env.auth.AuthError? {
      var p := w.payments[id];
      if env.auth.AuthApproved? {
        SaveLawful(w, w, p.(ref := env.auth.ref, status := Authorised, updatedAt := env.now), env.saveFault);
      } else {
        FailLawful(w, p, p.(ref := env.auth.ref, status := Failed, updatedAt := env.now), env.saveFault);
      }
    }
  }

  lemma {:induction false} VoidLawful(w: World, id: PaymentId, env: Env)
    requires id in w.payments ==> w.payments[id].id == id
    ensures LawfulAt(w, Void(w, id, env).0, id)
  {
    if id in w.payments && w.payments[id].status in {Intent, PendingAuthorisation, Authorised} {
      var p := w.payments[id];
      SaveLawful(w, Book(w, L.Void(w.books, p.hold).0), p.(status := Voided, updatedAt := env.now), env.saveFault);
    }
  }

  lemma {:induction false} EnsureWrites(w: World, a: AccountId)
    ensures EnsureAccount(w, a).payments == w.payments
  {
  }

  lemma {:induction false} RecordLawful(w: World, v: World, p: Payment, env: Env)
    requires Stored(w, p) && v.payments == w.payments && Disputable(p.status)
    ensures LawfulAt(w, RecordDispute(v, p, env).0, p.id)
  {
  }

  lemma {:induction false} OpenDisputeLawful(w: World, id: PaymentId, env: Env)
    requires id in w.payments ==> w.payments[id].id == id
    ensures LawfulAt(w, OpenDispute(w, id, env).0, id)
  {
    if id in w.payments && id !in w.disputes && Disputable(w.payments[id].status) {
      var w1 := EnsureAccount(EnsureAccount(w, Collections), DisputeHold);
      EnsureWrites(w, Collections);
      EnsureWrites(EnsureAccount(w, Collections), DisputeHold);
      RecordLawful(w, Book(w1, L.Hold(w1.books, PsmDisputeHold(id), DisputeTransfer(w.payments[id])).0), w.payments[id], env);
    }
  }

  lemma {:induction false} ResolveDisputeLawful(w: World, id: PaymentId, outcome: Option<Outcome>, env: Env)
    requires Inv(w) && !Revives(w, id, outcome, env)
    ensures LawfulAt(w, ResolveDispute(w, id, outcome, env).0, id)
  {
    hide Inv, Agrees, DisputeAgrees, CloseDispute;
    if outcome.Some? && id in w.payments && id in w.disputes && w.disputes[id].status == Open {
      var p, d := w.payments[id], w.disputes[id];
      RowAgrees(w, id);
      OpenPastCapture(w, p);
      var (books, r) := if outcome.value == Won then L.Void(w.books, d.hold)
                        else L.Post(w.books, d.hold, PsmDisputeDebit(id), d.amount);
      if r.Ok? { CloseLawful(w, Book(w, books), p, d, outcome.value, env); }
    }
  }

  /** An open dispute is about a payment past capture, and was opened on one. */
  lemma {:induction false} OpenPastCapture(w: World, p: Payment)
    requires DisputeAgrees(w, p) && p.id in w.disputes && w.disputes[p.id].status == Open
    ensures PastCapture(p.status) && p.status != ChargedBack && Disputable(w.disputes[p.id].prior)
  {
    hide LegAgrees, K.Moves;
  }

  /**
   The exact condition for resolving a dispute, cut off anywhere: records and ledger
   stay in agreement and final statuses final unless it revives a compensated payment.
   */
  lemma {:induction false} ResolveDisputeKeepsIff(w: World, id: PaymentId, outcome: Option<Outcome>, env: Env)
    requires Inv(w)
    ensures var v := ResolveDispute(w, id, outcome, env).0;
            Inv(v) && LawfulAt(w, v, id) <==> !Revives(w, id, outcome, env)
  {
    hide Inv, L.Void, L.Post, Agrees, DisputeAgrees, ResolveDispute, LawfulAt;
    if !Revives(w, id, outcome, env) {
      ResolveDisputeKeeps(w, id, outcome, env);
      ResolveDisputeLawful(w, id, outcome, env);
    } else {
      RowAgrees(w, id);
      RevivalUnlawful(w, id, outcome, env);
    }
  }

  lemma {:induction false} RevivalUnlawful(w: World, id: PaymentId, outcome: Option<Outcome>, env: Env)
    requires Revives(w, id, outcome, env) && w.payments[id].id == id && DisputeAgrees(w, w.payments[id])
    ensures !LawfulAt(w, ResolveDispute(w, id, outcome, env).0, id)
  {
    hide L.Void, L.Post, LegAgrees, K.Moves;
    var v := ResolveDispute(w, id, outcome, env).0;
    assert Disputable(w.disputes[id].prior);
    assert id in v.payments && v.payments[id].status in {w.disputes[id].prior, ChargedBack};
  }

  lemma {:induction false} CloseLawful(w: World, v: World, p: Payment, d: Dispute, outcome: Outcome, env: Env)
    requires Stored(w, p) && v.payments == w.payments && PastCapture(p.status) && Disputable(d.prior)
    requires Absorbing(p.status) ==> env.saveFault || env.finalFault || !Lives(v.life, 2)
    ensures LawfulAt(w, CloseDispute(v, p, d, outcome, env).0, p.id)
  {
  }

  lemma {:induction false} LateAuthorisationLawful(w: World, hook: Webhook, id: PaymentId, env: Env)
    requires id in w.payments && w.payments[id].id == id && hook.event == AuthorisationSuccessful
    ensures LawfulAt(w, HandleWebhook(w, hook, id, env), id)
  {
    hide Capture, Void, OpenDispute, ResolveDispute, ValueVerified;
    SaveLawful(w, w, w.payments[id].(updatedAt := env.now), env.saveFault);
  }

  lemma {:induction false} RowKeyed(w: World, id: PaymentId)
    requires Inv(w) && id in w.payments
    ensures w.payments[id].id == id
  {
    assert At(w, id);
  }

  lemma {:induction false} WebhookLawful(w: World, hook: Webhook, id: PaymentId, env: Env)
    requires Inv(w) && !HookLoses(w, hook, id, env)
    ensures LawfulAt(w, HandleWebhook(w, hook, id, env), id)
  {
    hide Inv, Capture, Void, OpenDispute, ResolveDispute, ValueVerified, CaptureLoses, Revives;
    if ResolvesTo(w, hook, id) {
      RowKeyed(w, id);
      match hook.event
      case ChargeSuccessful => CaptureLawful(w, id, env);
      case ChargeFailed => VoidLawful(w, id, env);
      case AuthorisationVoided => VoidLawful(w, id, env);
      case AuthorisationSuccessful => LateAuthorisationLawful(w, hook, id, env);
      case DisputeCreate => OpenDisputeLawful(w, id, env);
      case DisputeResolve =>
        if EventId(hook.provider, hook.reference, hook.event) !in w.events { ResolveDisputeLawful(w, id, hook.outcome, env); }
      case UnknownEvent =>
    }
  }

  lemma {:induction false} InFlightLawful(w: World, p: Payment, env: Env)
    requires Stored(w, p) && p.status == CaptureInFlight
    ensures LawfulAt(w, ResolveInFlight(w, p, env), p.id)
  {
    if env.verify.Says? {
      if env.verify.status != AtCaptured {
        FailLawful(w, p, p.(status := Failed, updatedAt := env.now), env.finalFault);
      } else {
        var q := AwaitingPostOf(p, env.verify.settled, env.now);
        var u := Save(w, q, env.saveFault);
        SaveWrites(w, q, env.saveFault);
        if env.saveFault {
          AwaitThenFinish(w, u, u, p, q, env.now);
        } else {
          FinishWrites(u, q, env);
          AwaitThenFinish(w, u, Finish(u, q, env), p, q, env.now);
        }
      }
    }
  }

  lemma {:induction false} SweepOneLawful(w: World, p: Payment, env: Env)
    requires Stored(w, p)
    ensures LawfulAt(w, SweepOne(w, p, env), p.id)
  {
    hide Finish, Compensate, ResolveInFlight, L.Void, RetryRefunds;
    match p.status
    case Captured => SaveLawful(w, w, p.(status := Settled, updatedAt := env.now), env.saveFault);
    case AwaitingPost => if p.post == NoTransfer { CompensateWrites(w, p, env); } else { FinishWrites(w, p, env); }
    case Intent => FailLawful(w, p, p.(status := Expired, updatedAt := env.now), env.saveFault);
    case PendingAuthorisation => FailLawful(w, p, p.(status := Expired, updatedAt := env.now), env.saveFault);
    case CaptureInFlight => InFlightLawful(w, p, env);
    case Failed => FailLawful(w, p, p.(updatedAt := env.now), env.saveFault);
    case Compensated => FailLawful(w, p, p.(updatedAt := env.now), env.saveFault);
    case _ =>
  }

  // ---------------------------------------------------------------- sweeps

  /** Every payment row survives, changed only lawfully. */
  predicate EvolvedAt(w: World, v: World, id: PaymentId)
  {
    id in w.payments ==> id in v.payments && Lawful(w.payments[id], v.payments[id])
  }

  ghost predicate Evolved(w: World, v: World)
  {
    forall id :: EvolvedAt(w, v, id)
  }

  lemma {:induction false} EvolvedThen(u: World, v: World, w: World)
    requires Evolved(u, v) && Evolved(v, w)
    ensures Evolved(u, w)
  {
    forall id ensures EvolvedAt(u, w, id) { assert EvolvedAt(u, v, id) && EvolvedAt(v, w, id); }
  }

  /** The listing a sweep works from: stored rows, each at most once. */
  ghost predicate Listed(w: World, listed: seq<Payment>)
  {
    && (forall i :: 0 <= i < |listed| ==> Stored(w, listed[i]))
    && (forall i, j :: 0 <= i < j < |listed| ==> listed[i].id != listed[j].id)
  }

  /** Some row of the sweep, when its turn comes, loses its compensation. */
  predicate SomeRowLoses(w: World, listed: seq<Payment>, envs: PaymentId -> Env)
  {
    listed != []
    && (var n := |listed| - 1;
        || SomeRowLoses(w, listed[..n], envs)
        || SweepLoses(Sweep(w, listed[..n], envs), listed[n], envs(listed[n].id)))
  }

  /** Rows outside the listing are left alone. */
  ghost predicate SameOutside(w: World, v: World, listed: seq<Payment>)
  {
    forall id :: id in w.payments && (forall i :: 0 <= i < |listed| ==> listed[i].id != id) ==>
      id in v.payments && v.payments[id] == w.payments[id]
  }

  lemma {:induction false} SweepKeeps(w: World, listed: seq<Payment>, envs: PaymentId -> Env)
    requires Inv(w) && Listed(w, listed) && !SomeRowLoses(w, listed, envs)
    ensures var v := Sweep(w, listed, envs);
            Inv(v) && Evolved(w, v) && SameOutside(w, v, listed)
  {
    if listed != [] {
      var n := |listed| - 1;
      var before, p := listed[..n], listed[n];
      var u := Sweep(w, before, envs);
      SweepKeeps(w, before, envs);
      assert Stored(u, p);
      var v := Sweep(w, listed, envs);
      SweepOneKeeps(u, p, envs(p.id));
      SweepOneLawful(u, p, envs(p.id));
      SweepFrame(w, u, v, listed);
    }
  }

  lemma {:induction false} SweepFrame(w: World, u: World, v: World, listed: seq<Payment>)
    requires listed != [] && Evolved(w, u) && SameOutside(w, u, listed[..|listed| - 1])
    requires LawfulAt(u, v, listed[|listed| - 1].id)
    ensures Evolved(w, v) && SameOutside(w, v, listed)
  {
    var before, last := listed[..|listed| - 1], listed[|listed| - 1].id;
    assert forall i :: 0 <= i < |before| ==> before[i] == listed[i];
    forall id ensures EvolvedAt(w, v, id) {
      assert EvolvedAt(w, u, id);
    }
    forall id | id in w.payments && forall i :: 0 <= i < |listed| ==> listed[i].id != id
      ensures id in v.payments && v.payments[id] == w.payments[id]
    {
      assert id != last && EvolvedAt(w, u, id);
      assert forall i :: 0 <= i < |before| ==> before[i].id != id;
    }
  }

  // ---------------------------------------------------------------- whole runs

  datatype Turn = Turn(op: Op, life: Life)

  /** The environment assumptions on one operation: fresh payment ids, real listings, other services keep out. */
  ghost predicate Admissible(w: World, op: Op, life: Life)
  {
    match op
    case DoIntent(_, id, _, _, _) => FreshId(w, id)
    case DoAuthorise(_, _) => true
    case DoCapture(id, env) => !CaptureLoses(w.(life := life), id, env)
    case DoVoid(_, _) => true
    case DoWebhook(hook, id, env) => !HookLoses(w.(life := life), hook, id, env)
    case DoSweep(listed, envs) => Listed(w, listed) && !SomeRowLoses(w.(life := life), listed, envs)
    case DoElsewhere(op) => Foreign(w.books, op)
  }

  function After(w: World, turns: seq<Turn>): World
  {
    if turns == [] then w
    else Step(After(w, turns[..|turns| - 1]), turns[|turns| - 1].op, turns[|turns| - 1].life)
  }

  ghost predicate AdmissibleRun(w: World, turns: seq<Turn>)
  {
    turns == [] || (&& AdmissibleRun(w, turns[..|turns| - 1])
                    && Admissible(After(w, turns[..|turns| - 1]), turns[|turns| - 1].op, turns[|turns| - 1].life))
  }

  lemma {:induction false} StepKeeps(w: World, op: Op, life: Life)
    requires Inv(w) && Admissible(w, op, life)
    ensures Inv(Step(w, op, life))
  {
    var v := w.(life := life);
    SpendKeeps(w, life);
    match op
    case DoIntent(req, id, gateOpen, providerKnown, env) => IntentKeeps(v, req, id, gateOpen, providerKnown, env);
    case DoAuthorise(id, env) => AuthoriseKeeps(v, id, env);
    case DoCapture(id, env) => CaptureKeeps(v, id, env);
    case DoVoid(id, env) => VoidKeeps(v, id, env);
    case DoWebhook(hook, id, env) => WebhookKeeps(v, hook, id, env);
    case DoSweep(listed, envs) => SweepKeeps(v, listed, envs);
    case DoElsewhere(op) => ElsewhereKeeps(v, op);
  }

  lemma {:induction false} LawfulEvolves(w: World, v: World, id: PaymentId)
    requires LawfulAt(w, v, id)
    ensures Evolved(w, v)
  {
    forall x ensures EvolvedAt(w, v, x) { }
  }

  lemma {:induction false} IntentWrites(w: World, req: IntentRequest, id: PaymentId, gateOpen: bool, providerKnown: bool, env: Env)
    ensures var v := CreateIntent(w, req, id, gateOpen, providerKnown, env);
            v.payments == w.payments || v.payments == w.payments[id := NewPayment(id, req, env)]
  {
    hide EnsureAccount, L.Hold, Release, DuplicateLevy;
    var p := NewPayment(id, req, env);
    var w1 := EnsureAccount(EnsureAccount(w, Payer(p.tin)), Collections);
    EnsureWrites(w, Payer(p.tin));
    EnsureWrites(EnsureAccount(w, Payer(p.tin)), Collections);
    var w2 := Book(w1, L.Hold(w1.books, p.hold, HoldTransfer(p)).0);
    SaveWrites(w2, p, env.saveFault);
    ReleaseWrites(Save(w2, p, env.saveFault), p.hold);
  }

  lemma {:induction false} IntentLawful(w: World, req: IntentRequest, id: PaymentId, gateOpen: bool, providerKnown: bool, env: Env)
    requires id !in w.payments
    ensures Evolved(w, CreateIntent(w, req, id, gateOpen, providerKnown, env))
  {
    IntentWrites(w, req, id, gateOpen, providerKnown, env);
    forall x ensures EvolvedAt(w, CreateIntent(w, req, id, gateOpen, providerKnown, env), x) { }
  }

  lemma {:induction false} StepEvolves(w: World, op: Op, life: Life)
    requires Inv(w) && Admissible(w, op, life)
    ensures Evolved(w, Step(w, op, life))
  {
    var v := w.(life := life);
    SpendKeeps(w, life);
    match op
    case DoIntent(req, id, gateOpen, providerKnown, env) =>
      IntentLawful(v, req, id, gateOpen, providerKnown, env);
      Forget(w, v, Step(w, op, life));
    case DoAuthorise(id, env) =>
      if id in w.payments { RowKeyed(w, id); }
      AuthoriseLawful(v, id, env);
      LawfulEvolves(w, Step(w, op, life), id);
    case DoCapture(id, env) =>
      if id in w.payments { RowKeyed(w, id); }
      CaptureLawful(v, id, env);
      LawfulEvolves(w, Step(w, op, life), id);
    case DoVoid(id, env) =>
      if id in w.payments { RowKeyed(w, id); }
      VoidLawful(v, id, env);
      LawfulEvolves(w, Step(w, op, life), id);
    case DoWebhook(hook, id, env) =>
      WebhookLawful(v, hook, id, env);
      LawfulEvolves(w, Step(w, op, life), id);
    case DoSweep(listed, envs) =>
      SweepKeeps(v, listed, envs);
      Forget(w, v, Step(w, op, life));
    case DoElsewhere(op') => LawfulEvolves(w, Step(w, op, life), "");
  }

  lemma {:induction false} Forget(w: World, v: World, u: World)
    requires v.payments == w.payments && Evolved(v, u)
    ensures Evolved(w, u)
  {
    forall id ensures EvolvedAt(w, u, id) { assert EvolvedAt(v, u, id); }
  }

  const EMPTY_WORLD := World(map[], L.INITIAL, {}, [], map[], {}, Forever)

  lemma {:induction false} EmptyWorldInv()
    ensures Inv(EMPTY_WORLD)
  {
    K.InitialWellKept();
    forall a ensures PlainAt(L.INITIAL, a) { }
    forall id ensures At(EMPTY_WORLD, id) { }
  }

  /**
   Status and ledger agree in every run: any interleaving of intents,
   authorisations, captures, voids, webhooks, sweeps and other services' ledger
   traffic, each cut off after any durable call.
   */
  lemma {:induction false} RunAgrees(w: World, turns: seq<Turn>)
    requires Inv(w) && AdmissibleRun(w, turns)
    ensures Inv(After(w, turns))
  {
    if turns != [] {
      var n := |turns| - 1;
      RunAgrees(w, turns[..n]);
      StepKeeps(After(w, turns[..n]), turns[n].op, turns[n].life);
    }
  }

  /** Final statuses are absorbing and capture is never undone, from any point of a run to any later one. */
  lemma {:induction false} RunEvolves(w: World, turns: seq<Turn>)
    requires Inv(w) && AdmissibleRun(w, turns)
    ensures Evolved(w, After(w, turns))
  {
    if turns == [] {
      forall id ensures EvolvedAt(w, w, id) { }
    } else {
      var n := |turns| - 1;
      RunEvolves(w, turns[..n]);
      RunAgrees(w, turns[..n]);
      StepEvolves(After(w, turns[..n]), turns[n].op, turns[n].life);
      EvolvedThen(w, After(w, turns[..n]), After(w, turns));
    }
  }

  // ---------------------------------------------------------------- what it means

  /** What a movement between two accounts takes out of account `a`, less what it brings in. */
  function Between(debit: AccountId, credit: AccountId, amount: int, a: AccountId): int
  {
    (if debit == a then amount else 0) - (if credit == a then amount else 0)
  }

  function Effect(e: L.Entry, a: AccountId): int
    requires e.Moved?
  {
    Between(e.debit, e.credit, e.amount, a)
  }

  /** The net posted effect of all of a payment's transfers on an account: what they took out of it, less what they brought in. */
  function NetOut(j: L.Journal, pay: PaymentId, a: AccountId): int
  {
    match j
    case Empty => 0
    case Log(past, e) => NetOut(past, pay, a) + if e.Moved? && Mine(e.id, pay) then Effect(e, a) else 0
  }

  /** The same under one transfer id. */
  function NetUnder(j: L.Journal, id: TransferId, a: AccountId): int
  {
    match j
    case Empty => 0
    case Log(past, e) => NetUnder(past, id, a) + if e.Moved? && e.id == id then Effect(e, a) else 0
  }

  lemma {:induction false} NetSplits(j: L.Journal, pay: PaymentId, a: AccountId)
    ensures NetOut(j, pay, a)
         == NetUnder(j, PsmIntent(pay), a) + NetUnder(j, PsmPost(pay), a) + NetUnder(j, PsmFee(pay), a)
          + NetUnder(j, PsmCompensation(pay), a) + NetUnder(j, PsmDisputeHold(pay), a) + NetUnder(j, PsmDisputeDebit(pay), a)
  {
    if j.Log? { NetSplits(j.past, pay, a); }
  }

  /** What moved at most once under an id has the effect of that one entry. */
  lemma {:induction false} NetOfOne(j: L.Journal, id: TransferId, a: AccountId)
    requires K.Moves(j, id) <= 1
    ensures NetUnder(j, id, a) == if K.Under(j, id).Some? then Effect(K.Under(j, id).value, a) else 0
    ensures K.Under(j, id).Some? <==> K.Moves(j, id) == 1
  {
    if j.Log? {
      NetOfOne(j.past, id, a);
      K.UnderMoves(j.past, id);
    }
  }

  /** The effect of an optional leg: that of its transfer when it is recorded, nothing otherwise. */
  lemma {:induction false} NetOfLeg(b: L.State, id: TransferId, t: L.Transfer, a: AccountId)
    requires K.WellKept(b) && LegAgrees(b, id, t)
    ensures NetUnder(b.journal, id, a)
         == if id in b.transfers then Between(t.debit, t.credit, t.amount, a) else 0
    ensures id in b.transfers ==> K.MovedOnce(b.journal, id, t.debit, t.credit, t.amount)
    ensures id !in b.transfers ==> K.Moves(b.journal, id) == 0
  {
    assert K.BackedAt(b, id);
    hide K.WellKept;
    NetOfOne(b.journal, id, a);
    if id in b.transfers { K.MovedAsRecorded(b, id); }
  }

  /** The net effect of a payment on an account, leg by leg. */
  lemma {:induction false} NetOfPayment(w: World, p: Payment, a: AccountId)
    requires K.WellKept(w.books) && Agrees(w, p) && DisputeAgrees(w, p)
    ensures NetOut(w.books.journal, p.id, a)
         == NetUnder(w.books.journal, PsmPost(p.id), a) + NetUnder(w.books.journal, PsmFee(p.id), a)
          + NetUnder(w.books.journal, PsmCompensation(p.id), a) + NetUnder(w.books.journal, PsmDisputeDebit(p.id), a)
  {
    hide K.WellKept, NetOut, NetUnder;
    NetSplits(w.books.journal, p.id, a);
    NetOfOne(w.books.journal, PsmIntent(p.id), a);
    NetOfOne(w.books.journal, PsmDisputeHold(p.id), a);
  }

  lemma {:induction false} NetOfLegs(w: World, p: Payment, a: AccountId)
    requires K.WellKept(w.books) && Agrees(w, p) && DisputeAgrees(w, p)
    ensures NetOut(w.books.journal, p.id, a)
         == (if PsmPost(p.id) in w.books.transfers then Between(Payer(p.tin), Collections, p.amount, a) else 0)
          + (if PsmCompensation(p.id) in w.books.transfers then Between(Collections, Payer(p.tin), p.amount, a) else 0)
          + (if PsmFee(p.id) in w.books.transfers then Between(Collections, FeeIncome, p.fee, a) else 0)
          + (if PsmDisputeDebit(p.id) in w.books.transfers then Between(Collections, DisputeHold, p.amount, a) else 0)
  {
    hide K.WellKept, K.Moves, K.AmountMoved, NetOut, NetUnder;
    NetOfPayment(w, p, a);
    NetOfLeg(w.books, PsmPost(p.id), HoldTransfer(p).(pending := false), a);
    NetOfLeg(w.books, PsmCompensation(p.id), ReversalTransfer(p), a);
    NetOfLeg(w.books, PsmFee(p.id), FeeTransfer(p), a);
    NetOfLeg(w.books, PsmDisputeDebit(p.id), DisputeTransfer(p).(pending := false), a);
  }

  /**
   What a payment's status promises about posted money. `NetOut` of the payer is what
   the payer is out of pocket by all transfers of this payment together.
   */
  ghost predicate Promised(w: World, p: Payment)
  {
    var j, payer := w.books.journal, Payer(p.tin);
    && (p.status in {Captured, Settled} ==>
          && K.MovedOnce(j, PsmPost(p.id), payer, Collections, p.amount)
          && K.Moves(j, PsmCompensation(p.id)) == 0 && NetOut(j, p.id, payer) == p.amount
          && (if p.fee > 0 then K.MovedOnce(j, PsmFee(p.id), Collections, FeeIncome, p.fee) else K.Moves(j, PsmFee(p.id)) == 0)
          && HasCert(w, p.id))
    && (p.status in {Voided, Failed, Expired} ==>
          && K.Moves(j, PsmPost(p.id)) == 0 && (forall a :: NetOut(j, p.id, a) == 0)
          && !HoldPending(w.books, PsmIntent(p.id)))
    && (p.status == Compensated ==>
          && NetOut(j, p.id, payer) == 0 && !HoldPending(w.books, PsmIntent(p.id))
          && (K.Moves(j, PsmPost(p.id)) == 1 ==>
                && K.MovedOnce(j, PsmPost(p.id), payer, Collections, p.amount)
                && K.MovedOnce(j, PsmCompensation(p.id), Collections, payer, p.amount))
          && (K.Moves(j, PsmPost(p.id)) == 0 && K.Moves(j, PsmDisputeDebit(p.id)) == 0 ==> forall a :: NetOut(j, p.id, a) == 0)
          // A fee leg that was posted before the compensation is not reversed, and neither is a chargeback.
          && NetOut(j, p.id, Collections) == K.AmountMoved(j, PsmFee(p.id)) + K.AmountMoved(j, PsmDisputeDebit(p.id)))
    && (p.status == ChargedBack ==> K.MovedOnce(j, PsmDisputeDebit(p.id), Collections, DisputeHold, p.amount))
  }

  /** A certificate stands only for a post that landed in full. */
  ghost predicate CertBacked(w: World, id: PaymentId)
  {
    HasCert(w, id) ==>
      id in w.payments
      && K.MovedOnce(w.books.journal, PsmPost(id), Payer(w.payments[id].tin), Collections, w.payments[id].amount)
  }

  lemma {:induction false} LegsMoved(w: World, p: Payment)
    requires K.WellKept(w.books) && Agrees(w, p) && DisputeAgrees(w, p)
    ensures var b := w.books;
            && (if PsmPost(p.id) in b.transfers then K.MovedOnce(b.journal, PsmPost(p.id), Payer(p.tin), Collections, p.amount)
                else K.Moves(b.journal, PsmPost(p.id)) == 0)
            && (if PsmCompensation(p.id) in b.transfers
                then K.MovedOnce(b.journal, PsmCompensation(p.id), Collections, Payer(p.tin), p.amount)
                else K.Moves(b.journal, PsmCompensation(p.id)) == 0)
            && (if PsmFee(p.id) in b.transfers then K.MovedOnce(b.journal, PsmFee(p.id), Collections, FeeIncome, p.fee)
                else K.Moves(b.journal, PsmFee(p.id)) == 0 && K.AmountMoved(b.journal, PsmFee(p.id)) == 0)
            && (if PsmDisputeDebit(p.id) in b.transfers
                then K.MovedOnce(b.journal, PsmDisputeDebit(p.id), Collections, DisputeHold, p.amount)
                else K.Moves(b.journal, PsmDisputeDebit(p.id)) == 0 && K.AmountMoved(b.journal, PsmDisputeDebit(p.id)) == 0)
  {
    hide K.WellKept;
    NetOfLeg(w.books, PsmPost(p.id), HoldTransfer(p).(pending := false), Collections);
    NetOfLeg(w.books, PsmCompensation(p.id), ReversalTransfer(p), Collections);
    NetOfLeg(w.books, PsmFee(p.id), FeeTransfer(p), Collections);
    NetOfLeg(w.books, PsmDisputeDebit(p.id), DisputeTransfer(p).(pending := false), Collections);
  }

  /** No chargeback stands against a payment that was never captured. */
  lemma {:induction false} NoStrayDebit(w: World, p: Payment)
    requires DisputeAgrees(w, p) && !PastCapture(p.status)
    ensures PsmDisputeDebit(p.id) !in w.books.transfers
  {
    match DisputeOf(w.disputes, p.id)
    case None =>
    case Some(d) => if d.status.Resolved? { assert d.status.outcome == Won || d.status.outcome == Lost; }
  }

  /** Where nothing is recorded nothing moved, net of nothing. */
  lemma {:induction false} NothingNet(w: World, p: Payment, a: AccountId)
    requires K.WellKept(w.books) && Agrees(w, p) && DisputeAgrees(w, p)
    requires PsmPost(p.id) !in w.books.transfers && PsmDisputeDebit(p.id) !in w.books.transfers
    ensures NetOut(w.books.journal, p.id, a) == 0
  {
    hide K.WellKept, NetOut;
    NetOfLegs(w, p, a);
  }

  lemma {:induction false} AgreementPromises(w: World, p: Payment)
    requires K.WellKept(w.books) && Agrees(w, p) && DisputeAgrees(w, p)
    ensures Promised(w, p)
  {
    hide K.WellKept, K.MovedOnce, K.Moves, K.AmountMoved, NetOut, LegAgrees;
    LegsMoved(w, p);
    if p.status !in {Disputed, ChargedBack} {
      if !PastCapture(p.status) { NoStrayDebit(w, p); }
      if PsmPost(p.id) !in w.books.transfers && PsmDisputeDebit(p.id) !in w.books.transfers {
        forall a ensures NetOut(w.books.journal, p.id, a) == 0 { NothingNet(w, p, a); }
      }
      NetOfLegs(w, p, Payer(p.tin));
      NetOfLegs(w, p, Collections);
      MovedOnceCounts(w.books.journal, PsmPost(p.id), Payer(p.tin), Collections, p.amount);
      MovedOnceCounts(w.books.journal, PsmFee(p.id), Collections, FeeIncome, p.fee);
      MovedOnceCounts(w.books.journal, PsmDisputeDebit(p.id), Collections, DisputeHold, p.amount);
    }
  }

  lemma {:induction false} MovedOnceCounts(j: L.Journal, id: TransferId, d: AccountId, c: AccountId, amount: nat)
    ensures K.MovedOnce(j, id, d, c, amount) ==> K.Moves(j, id) == 1 && K.AmountMoved(j, id) == amount
  {
  }

  /** In every reachable world each status keeps its promise about the journal, and no certificate stands without a landed post. */
  lemma {:induction false} StatusMeansLedger(turns: seq<Turn>, id: PaymentId)
    requires AdmissibleRun(EMPTY_WORLD, turns)
    ensures var w := After(EMPTY_WORLD, turns);
            (id in w.payments ==> w.payments[id].id == id && Promised(w, w.payments[id])) && CertBacked(w, id)
  {
    EmptyWorldInv();
    RunAgrees(EMPTY_WORLD, turns);
    InvPromises(After(EMPTY_WORLD, turns), id);
  }

  lemma {:induction false} InvPromises(w: World, id: PaymentId)
    requires Inv(w)
    ensures (id in w.payments ==> w.payments[id].id == id && Promised(w, w.payments[id])) && CertBacked(w, id)
  {
    assert At(w, id);
    if id in w.payments {
      hide At;
      AgreementPromises(w, w.payments[id]);
      LegsMoved(w, w.payments[id]);
    }
  }

  /** In every reachable world at most one payment per (tin, period, instalment class) is live. */
  lemma {:induction false} OneLiveLevy(turns: seq<Turn>, x: PaymentId, y: PaymentId)
    requires AdmissibleRun(EMPTY_WORLD, turns)
    requires BothLive(After(EMPTY_WORLD, turns).payments, x, y)
    ensures x == y
  {
    EmptyWorldInv();
    RunAgrees(EMPTY_WORLD, turns);
  }
}
