/** Over whole runs, no compensated payment is without a record of its refund, and sweeps retry the refunds that failed. */
module PaymentRefunds {
  import opened Prelude
  import opened Ids
  import opened Payments
  import opened PaymentLaws
  import opened PaymentRuns
  import opened PaymentTheorems
  import opened PaymentOutcomes
  import E = PaymentEvents
  import Q = PaymentRecovery
  import L = Ledger

  // ---------------------------------------------------------------- every compensated payment is accounted for

  /** A record that says what became of the refund of `p`: skipped only when the provider gave no reference. */
  predicate Accounts(c: Compensation, p: Payment)
  {
    && c.pay == p.id
    && (if p.ref == "" then c.refund == RefundSkipped else c.refund in {Refunded, RefundRetried, RefundFailed})
  }

  ghost predicate Accounted(comps: seq<Compensation>, p: Payment)
  {
    exists i :: 0 <= i < |comps| && Accounts(comps[i], p)
  }

  ghost predicate AccountedAt(w: World, id: PaymentId)
  {
    && (id in w.payments ==> w.payments[id].id == id && (w.payments[id].status == Compensated ==> Accounted(w.comps, w.payments[id])))
    && (id in w.disputes ==> w.disputes[id].prior != Compensated)
  }

  ghost predicate AllAccounted(w: World)
  {
    forall id :: AccountedAt(w, id)
  }

  /** Only payments, records and disputes matter. */
  lemma {:induction false} SameAccounted(w: World, v: World)
    requires AllAccounted(w) && v.payments == w.payments && v.comps == w.comps && v.disputes == w.disputes
    ensures AllAccounted(v)
  {
    forall id ensures AccountedAt(v, id) { assert AccountedAt(w, id); }
  }

  lemma {:induction false} SaveAccounted(w: World, p: Payment, fault: bool)
    requires AllAccounted(w) && (p.status == Compensated ==> Accounted(w.comps, p))
    ensures AllAccounted(Save(w, p, fault))
  {
    forall id ensures AccountedAt(Save(w, p, fault), id) { assert AccountedAt(w, id); }
  }

  lemma {:induction false} SaveDisputeAccounted(w: World, id: PaymentId, d: Dispute, fault: bool)
    requires AllAccounted(w) && d.prior != Compensated
    ensures AllAccounted(SaveDispute(w, id, d, fault))
  {
    forall x ensures AccountedAt(SaveDispute(w, id, d, fault), x) { assert AccountedAt(w, x); }
  }

  /** More records account for no less. */
  lemma {:induction false} MoreAccounted(before: seq<Compensation>, after: seq<Compensation>, p: Payment)
    requires Accounted(before, p) && |before| <= |after| && after[..|before|] == before
    ensures Accounted(after, p)
  {
    var i :| 0 <= i < |before| && Accounts(before[i], p);
    assert after[..|before|][i] == after[i];
  }

  lemma {:induction false} CompensateAccounted(w: World, p: Payment, env: Env)
    requires AllAccounted(w)
    ensures AllAccounted(Compensate(w, p, env))
  {
    if Alive(w) {
      var v := Compensate(w, p, env);
      CompensationRecords(w, p, env);
      var q := p.(status := Compensated, updatedAt := env.now);
      assert Accounts(v.comps[|w.comps|], q);
      hide Compensate, Accounts;
      forall id ensures AccountedAt(v, id) {
        assert AccountedAt(w, id);
        if id in w.payments && w.payments[id].status == Compensated { MoreAccounted(w.comps, v.comps, w.payments[id]); }
      }
    }
  }

  lemma {:induction false} RetryAccounted(w: World, p: Payment, env: Env)
    requires AllAccounted(w)
    ensures AllAccounted(RetryFailedRefund(w, p, env))
  {
    var v := RetryFailedRefund(w, p, env);
    E.RetriesEach(w.comps, p, env);
    hide RetryRefunds;
    forall id ensures AccountedAt(v, id) {
      assert AccountedAt(w, id);
      if id in w.payments && w.payments[id].status == Compensated && Alive(w) {
        var i :| 0 <= i < |w.comps| && Accounts(w.comps[i], w.payments[id]);
        assert E.Retried(w.comps[i], v.comps[i], p, env);
      }
    }
  }

  // ---------------------------------------------------------------- operation by operation

  lemma {:induction false} FinishAccounted(w: World, p: Payment, env: Env)
    requires AllAccounted(w)
    ensures AllAccounted(Finish(w, p, env))
  {
    hide AllAccounted, L.Post, PostFeeLeg, Compensate;
    var (books, r) := L.Post(w.books, p.hold, p.post, p.amount);
    var w1 := Book(w, books);
    SameAccounted(w, w1);
    var w2 := PostFeeLeg(w1, p).0;
    FeeOnlyBooks(w1, p);
    SameAccounted(w1, w2);
    var w3 := Issue(w2, p, env);
    SameAccounted(w2, w3);
    CompensateAccounted(w1, p, env);
    CompensateAccounted(w2, p, env);
    CompensateAccounted(w3, p, env);
    SaveAccounted(w3, p.(status := Captured, updatedAt := env.now), env.finalFault);
  }

  lemma {:induction false} FailAccounted(w: World, p: Payment, q: Payment, fault: bool)
    requires AllAccounted(w) && q.status != Compensated
    ensures AllAccounted(Save(Release(w, p.hold), q, fault))
  {
    hide AllAccounted;
    E.ReleaseOnlyBooks(w, p.hold);
    SameAccounted(w, Release(w, p.hold));
    SaveAccounted(Release(w, p.hold), q, fault);
  }

  lemma {:induction false} CaptureAccounted(w: World, id: PaymentId, env: Env)
    requires AllAccounted(w)
    ensures AllAccounted(Capture(w, id, env))
  {
    hide AllAccounted, Finish, Compensate, Save, Release, PackCurrent;
    if id in w.payments && w.payments[id].status == Authorised {
      var p := w.payments[id];
      SaveAccounted(w, p.(status := CaptureInFlight, updatedAt := env.now), env.saveFault);
      FailAccounted(w, p, p.(status := Failed, updatedAt := env.now), env.finalFault);
      match ChargeSeen(env)
      case Charged(settled) =>
        var q := AwaitingPostOf(p, settled, env.now);
        SaveAccounted(w, q, env.saveFault);
        CompensateAccounted(Save(w, q, env.saveFault), q, env);
        FinishAccounted(Save(w, q, env.saveFault), q, env);
      case _ =>
    }
  }

  lemma {:induction false} IntentAccounted(w: World, req: IntentRequest, id: PaymentId, gateOpen: bool, providerKnown: bool, env: Env)
    requires AllAccounted(w)
    ensures AllAccounted(CreateIntent(w, req, id, gateOpen, providerKnown, env))
  {
    hide AllAccounted, L.Hold, EnsureAccount, DuplicateLevy;
    var p := NewPayment(id, req, env);
    var w0 := EnsureAccount(w, Payer(p.tin));
    var w1 := EnsureAccount(w0, Collections);
    EnsureOnly(w, Payer(p.tin));
    EnsureOnly(w0, Collections);
    SameAccounted(w, w1);
    var w2 := Book(w1, L.Hold(w1.books, p.hold, HoldTransfer(p)).0);
    SameAccounted(w1, w2);
    var w3 := Save(w2, p, env.saveFault);
    SaveAccounted(w2, p, env.saveFault);
    E.ReleaseOnlyBooks(w3, p.hold);
    SameAccounted(w3, Release(w3, p.hold));
  }

  lemma {:induction false} AuthoriseAccounted(w: World, id: PaymentId, env: Env)
    requires AllAccounted(w)
    ensures AllAccounted(Authorise(w, id, env))
  {
    hide AllAccounted, Save, Release;
    if id in w.payments {
      var p := w.payments[id];
      match env.auth
      case AuthError =>
      case AuthApproved(ref) => SaveAccounted(w, p.(ref := ref, status := Authorised, updatedAt := env.now), env.saveFault);
      case AuthDeclined(ref) => FailAccounted(w, p, p.(ref := ref, status := Failed, updatedAt := env.now), env.saveFault);
    }
  }

  lemma {:induction false} VoidAccounted(w: World, id: PaymentId, env: Env)
    requires AllAccounted(w)
    ensures AllAccounted(Void(w, id, env).0)
  {
    hide AllAccounted, L.Void;
    if id in w.payments {
      var p := w.payments[id];
      var w1 := Book(w, L.Void(w.books, p.hold).0);
      SameAccounted(w, w1);
      SaveAccounted(w1, p.(status := Voided, updatedAt := env.now), env.saveFault);
    }
  }

  lemma {:induction false} OpenDisputeAccounted(w: World, id: PaymentId, env: Env)
    requires AllAccounted(w)
    ensures AllAccounted(OpenDispute(w, id, env).0)
  {
    hide AllAccounted, L.Hold, EnsureAccount;
    if id in w.payments && Disputable(w.payments[id].status) {
      var p := w.payments[id];
      var w0 := EnsureAccount(w, Collections);
      var w1 := EnsureAccount(w0, DisputeHold);
      EnsureOnly(w, Collections);
      EnsureOnly(w0, DisputeHold);
      SameAccounted(w, w1);
      var w2 := Book(w1, L.Hold(w1.books, PsmDisputeHold(id), DisputeTransfer(p)).0);
      SameAccounted(w1, w2);
      var d := Dispute(p.amount, Open, p.status, PsmDisputeHold(p.id));
      SaveDisputeAccounted(w2, p.id, d, env.saveFault);
      SaveAccounted(SaveDispute(w2, p.id, d, env.saveFault), p.(status := Disputed, updatedAt := env.now), env.finalFault);
    }
  }

  lemma {:induction false} ResolveDisputeAccounted(w: World, id: PaymentId, outcome: Option<Outcome>, env: Env)
    requires AllAccounted(w)
    ensures AllAccounted(ResolveDispute(w, id, outcome, env).0)
  {
    if outcome.Some? && id in w.payments && id in w.disputes {
      var p, d := w.payments[id], w.disputes[id];
      assert AccountedAt(w, id);
      hide AllAccounted, L.Void, L.Post;
      var w1 := Book(w, (if outcome.value == Won then L.Void(w.books, d.hold)
                         else L.Post(w.books, d.hold, PsmDisputeDebit(id), d.amount)).0);
      SameAccounted(w, w1);
      var d' := d.(status := Resolved(outcome.value));
      SaveDisputeAccounted(w1, p.id, d', env.saveFault);
      SaveAccounted(SaveDispute(w1, p.id, d', env.saveFault),
                    p.(status := if outcome.value == Won then d.prior else ChargedBack, updatedAt := env.now), env.finalFault);
    }
  }

  lemma {:induction false} WebhookAccounted(w: World, hook: Webhook, id: PaymentId, env: Env)
    requires AllAccounted(w)
    ensures AllAccounted(HandleWebhook(w, hook, id, env))
  {
    hide AllAccounted, Capture, Void, OpenDispute, ResolveDispute, Save, ValueVerified;
    SameAccounted(w, MarkProcessed(w, hook, env));
    if ResolvesTo(w, hook, id) {
      match hook.event
      case ChargeSuccessful =>
        CaptureAccounted(w, id, env);
        SameAccounted(Capture(w, id, env), MarkProcessed(Capture(w, id, env), hook, env));
      case AuthorisationSuccessful =>
        var q := w.payments[id].(status := Authorised, updatedAt := env.now);
        SaveAccounted(w, q, env.saveFault);
        SameAccounted(Save(w, q, env.saveFault), MarkProcessed(Save(w, q, env.saveFault), hook, env));
      case DisputeCreate =>
        OpenDisputeAccounted(w, id, env);
        SameAccounted(OpenDispute(w, id, env).0, MarkProcessed(OpenDispute(w, id, env).0, hook, env));
      case DisputeResolve =>
        ResolveDisputeAccounted(w, id, hook.outcome, env);
        SameAccounted(ResolveDispute(w, id, hook.outcome, env).0, MarkProcessed(ResolveDispute(w, id, hook.outcome, env).0, hook, env));
      case _ =>
        VoidAccounted(w, id, env);
        SameAccounted(Void(w, id, env).0, MarkProcessed(Void(w, id, env).0, hook, env));
    }
  }

  lemma {:induction false} SweepOneAccounted(w: World, p: Payment, env: Env)
    requires AllAccounted(w) && Stored(w, p)
    ensures AllAccounted(SweepOne(w, p, env))
  {
    assert AccountedAt(w, p.id);
    hide AllAccounted, Finish, Compensate, Save, Release, RetryFailedRefund;
    match p.status
    case Captured => SaveAccounted(w, p.(status := Settled, updatedAt := env.now), env.saveFault);
    case AwaitingPost =>
      CompensateAccounted(w, p, env);
      FinishAccounted(w, p, env);
    case CaptureInFlight => InFlightAccounted(w, p, env);
    case Failed => FailAccounted(w, p, p.(updatedAt := env.now), env.saveFault);
    case Compensated =>
      E.ReleaseOnlyBooks(w, p.hold);
      SameAccounted(w, Release(w, p.hold));
      StillAccounted(w.comps, p, env.now);
      SaveAccounted(Release(w, p.hold), p.(updatedAt := env.now), env.saveFault);
      RetryAccounted(VoidFailedHold(w, p, env), p, env);
    case _ => FailAccounted(w, p, p.(status := Expired, updatedAt := env.now), env.saveFault);
  }

  lemma {:induction false} StillAccounted(comps: seq<Compensation>, p: Payment, now: int)
    requires Accounted(comps, p)
    ensures Accounted(comps, p.(updatedAt := now))
  {
    var i :| 0 <= i < |comps| && Accounts(comps[i], p);
    assert Accounts(comps[i], p.(updatedAt := now));
  }

  lemma {:induction false} InFlightAccounted(w: World, p: Payment, env: Env)
    requires AllAccounted(w)
    ensures AllAccounted(ResolveInFlight(w, p, env))
  {
    hide AllAccounted, Finish, Compensate, Save, Release;
    FailAccounted(w, p, p.(status := Failed, updatedAt := env.now), env.finalFault);
    if env.verify.Says? {
      var q := AwaitingPostOf(p, env.verify.settled, env.now);
      SaveAccounted(w, q, env.saveFault);
      FinishAccounted(Save(w, q, env.saveFault), q, env);
    }
  }

  lemma {:induction false} SweepAccounted(w: World, listed: seq<Payment>, envs: PaymentId -> Env)
    requires AllAccounted(w) && Inv(w) && Listed(w, listed) && !SomeRowLoses(w, listed, envs)
    ensures AllAccounted(Sweep(w, listed, envs))
  {
    hide AllAccounted, Inv, SweepOne;
    if listed != [] {
      var n := |listed| - 1;
      SweepAccounted(w, listed[..n], envs);
      RowStands(w, listed, envs);
      SweepOneAccounted(Sweep(w, listed[..n], envs), listed[n], envs(listed[n].id));
    }
  }

  /** The last row of the listing is still as it was listed when its turn comes. */
  lemma {:induction false} RowStands(w: World, listed: seq<Payment>, envs: PaymentId -> Env)
    requires listed != [] && Inv(w) && Listed(w, listed) && !SomeRowLoses(w, listed, envs)
    ensures var n := |listed| - 1;
            Stored(Sweep(w, listed[..n], envs), listed[n]) && Inv(Sweep(w, listed[..n], envs))
  {
    hide Inv;
    var n := |listed| - 1;
    SweepKeeps(w, listed[..n], envs);
    assert Stored(w, listed[n]);
  }

  lemma {:induction false} StepAccounted(w: World, op: Op, life: Life)
    requires AllAccounted(w) && Inv(w) && Admissible(w, op, life)
    ensures AllAccounted(Step(w, op, life))
  {
    hide AllAccounted, Inv, FreshId, CaptureLoses, HookLoses, SomeRowLoses, Foreign, Capture, Authorise, Void, CreateIntent,
      HandleWebhook, Sweep, L.Step;
    var v := w.(life := life);
    SpendKeeps(w, life);
    SameAccounted(w, v);
    match op
    case DoIntent(req, id, gateOpen, providerKnown, env) => IntentAccounted(v, req, id, gateOpen, providerKnown, env);
    case DoAuthorise(id, env) => AuthoriseAccounted(v, id, env);
    case DoCapture(id, env) => CaptureAccounted(v, id, env);
    case DoVoid(id, env) => VoidAccounted(v, id, env);
    case DoWebhook(hook, id, env) => WebhookAccounted(v, hook, id, env);
    case DoSweep(listed, envs) => SweepAccounted(v, listed, envs);
    case DoElsewhere(op') => SameAccounted(v, Step(w, op, life));
  }

  /** In every run, from any world in which records and ledger agree. */
  lemma {:induction false} RunAccounted(w: World, turns: seq<Turn>)
    requires AllAccounted(w) && Inv(w) && AdmissibleRun(w, turns)
    ensures AllAccounted(After(w, turns))
  {
    hide AllAccounted, Inv, Admissible, Step;
    if turns != [] {
      var n := |turns| - 1;
      RunAccounted(w, turns[..n]);
      RunAgrees(w, turns[..n]);
      StepAccounted(After(w, turns[..n]), turns[n].op, turns[n].life);
    }
  }

  /**
   In every reachable world a compensated payment has a record of its refund: refunded, retried or failed when the
   provider gave a reference, skipped when it gave none.
   */
  lemma {:induction false} CompensatedIsAccounted(turns: seq<Turn>, id: PaymentId)
    requires AdmissibleRun(EMPTY_WORLD, turns)
    ensures var w := After(EMPTY_WORLD, turns);
            id in w.payments && w.payments[id].status == Compensated ==>
              exists i :: 0 <= i < |w.comps| && w.comps[i].pay == id
                          && (if w.payments[id].ref == "" then w.comps[i].refund == RefundSkipped
                              else w.comps[i].refund in {Refunded, RefundRetried, RefundFailed})
  {
    EmptyWorldInv();
    forall x ensures AccountedAt(EMPTY_WORLD, x) { }
    RunAccounted(EMPTY_WORLD, turns);
    var w := After(EMPTY_WORLD, turns);
    assert AccountedAt(w, id);
    if id in w.payments && w.payments[id].status == Compensated {
      var i :| 0 <= i < |w.comps| && Accounts(w.comps[i], w.payments[id]);
    }
  }

  // ---------------------------------------------------------------- failed refunds are retried

  /** No record of the payment says that its refund failed. */
  ghost predicate NoneFailed(comps: seq<Compensation>, id: PaymentId)
  {
    forall i :: 0 <= i < |comps| && comps[i].pay == id ==> comps[i].refund != RefundFailed
  }

  predicate Accepts(env: Env)
  {
    env.refundOk || env.voidOk
  }

  lemma {:induction false} CompensateNoneFailed(w: World, p: Payment, env: Env, id: PaymentId)
    requires Accepts(env) && NoneFailed(w.comps, id)
    ensures NoneFailed(Compensate(w, p, env).comps, id)
  {
    if Alive(w) { CompensationRecords(w, p, env); }
    hide Compensate;
  }

  lemma {:induction false} FinishNoneFailed(w: World, p: Payment, env: Env, id: PaymentId)
    requires Accepts(env) && NoneFailed(w.comps, id)
    ensures NoneFailed(Finish(w, p, env).comps, id)
  {
    hide NoneFailed, L.Post, PostFeeLeg, Compensate;
    var w1 := Book(w, L.Post(w.books, p.hold, p.post, p.amount).0);
    var w2 := PostFeeLeg(w1, p).0;
    FeeOnlyBooks(w1, p);
    CompensateNoneFailed(w1, p, env, id);
    CompensateNoneFailed(w2, p, env, id);
    CompensateNoneFailed(Issue(w2, p, env), p, env, id);
  }

  /** A row swept while the provider accepts leaves no failed refund on its own payment, and adds none to any other. */
  lemma {:induction false} SweepOneNoneFailed(w: World, p: Payment, env: Env, id: PaymentId)
    requires Accepts(env) && w.life == Forever
    requires NoneFailed(w.comps, id) || (p.id == id && p.status == Compensated && p.ref != "")
    ensures NoneFailed(SweepOne(w, p, env).comps, id)
  {
    hide Finish, Compensate, L.Void;
    E.ReleaseOnlyBooks(w, p.hold);
    if p.status == Compensated {
      E.RetriesEach(w.comps, p, env);
    } else {
      CompensateNoneFailed(w, p, env, id);
      FinishNoneFailed(w, p, env, id);
      if p.status == CaptureInFlight && env.verify.Says? {
        var q := AwaitingPostOf(p, env.verify.settled, env.now);
        FinishNoneFailed(Save(w, q, env.saveFault), q, env, id);
      }
    }
  }

  lemma {:induction false} SweepNoneFailed(w: World, listed: seq<Payment>, envs: PaymentId -> Env, now: int, id: PaymentId)
    requires Inv(w) && Listed(w, listed) && w.life == Forever && Q.QuietEnvs(envs, now) && forall x :: Accepts(envs(x))
    requires NoneFailed(w.comps, id)
             || exists i :: 0 <= i < |listed| && listed[i].id == id && listed[i].status == Compensated && listed[i].ref != ""
    ensures NoneFailed(Sweep(w, listed, envs).comps, id)
  {
    hide Inv, NoneFailed, SweepOne;
    if listed != [] {
      var n := |listed| - 1;
      var before, p := listed[..n], listed[n];
      var u := Sweep(w, before, envs);
      assert Accepts(envs(p.id));
      Q.SweepQuiet(w, before, envs, now);
      if !(p.id == id && p.status == Compensated && p.ref != "") {
        if !NoneFailed(w.comps, id) {
          var i :| 0 <= i < |listed| && listed[i].id == id && listed[i].status == Compensated && listed[i].ref != "";
          assert before[i] == listed[i];
        }
        SweepNoneFailed(w, before, envs, now, id);
      }
      SweepOneNoneFailed(u, p, envs(p.id), id);
    }
  }

  /** The payments whose refund the sweep retries, and those that need no retry. */
  ghost predicate Retryable(w: World, id: PaymentId)
  {
    NoneFailed(w.comps, id) || (id in w.payments && w.payments[id].status == Compensated && w.payments[id].ref != "")
  }

  /**
   One quiet sweep of every payment, while the provider refunds or voids, leaves no failed refund on any compensated
   payment it has a reference for; together with `CompensatedIsAccounted`, every such payment is then refunded or retried.
   */
  lemma {:induction false} RefundsConverge(w: World, listed: seq<Payment>, envs: PaymentId -> Env, now: int, id: PaymentId)
    requires Inv(w) && AllAccounted(w) && Q.Complete(w, listed) && w.life == Forever
    requires Q.QuietEnvs(envs, now) && forall x :: envs(x).refundOk || envs(x).voidOk
    requires Retryable(w, id)
    ensures var v := Sweep(w, listed, envs);
            && (forall i :: 0 <= i < |v.comps| && v.comps[i].pay == id ==> v.comps[i].refund != RefundFailed)
            && (id in v.payments && v.payments[id].status == Compensated && v.payments[id].ref != "" ==>
                  exists i :: 0 <= i < |v.comps| && v.comps[i].pay == id && v.comps[i].refund in {Refunded, RefundRetried})
  {
    hide Inv, Sweep;
    forall x ensures Accepts(envs(x)) { }
    if !NoneFailed(w.comps, id) {
      var i :| 0 <= i < |listed| && listed[i].id == id;
      assert Stored(w, listed[i]);
    }
    var v := Sweep(w, listed, envs);
    SweepNoneFailed(w, listed, envs, now, id);
    Q.QuietNeverLoses(w, listed, envs, now);
    SweepAccounted(w, listed, envs);
    assert AccountedAt(v, id);
    if id in v.payments && v.payments[id].status == Compensated && v.payments[id].ref != "" {
      var i :| 0 <= i < |v.comps| && Accounts(v.comps[i], v.payments[id]);
    }
  }
}
