/**
 The payment service and its recovery sweeper (services/presumptive/payments.go,
 recovery.go, disputes.go) as the object they are: stored documents updated in
 place around calls to the ledger client. Each method is proved to take the
 durable world where the function of `Payments` of the same name takes it.
 */
module PaymentServices {
  import opened Prelude
  import opened Ids
  import opened DevLedger
  import L = Ledger
  import Hlc
  import P = Payments
  import opened Payments
  import K = PaymentLaws
  import R = PaymentRuns
  import T = PaymentTheorems
  import O = PaymentOutcomes
  import E = PaymentEvents

  class PaymentService {
    const lc: DevClient
    var payments: map<PaymentId, Payment>
    var certs: set<Cert>
    var comps: seq<Compensation>
    var disputes: map<PaymentId, Dispute>
    var events: set<EventId>

    constructor (lc: DevClient)
      requires lc.Valid()
      ensures Valid() && this.lc == lc && Durable() == World(map[], lc.Model(), {}, [], map[], {}, Forever)
    {
      this.lc := lc;
      payments, certs, comps, disputes, events := map[], {}, [], map[], {};
    }

    /** The durable world behind the service. */
    ghost function Durable(): World
      reads this, lc
    {
      World(payments, lc.Model(), certs, comps, disputes, events, Forever)
    }

    ghost predicate Valid()
      reads this, lc
    {
      lc.Valid()
    }

    /** Records and ledger agree: the invariant of `PaymentLaws`. */
    ghost predicate Lawful()
      reads this, lc
    {
      K.Inv(Durable())
    }

    method SavePayment(p: Payment, fault: bool)
      requires Valid()
      modifies this`payments
      ensures Valid() && Durable() == Save(old(Durable()), p, fault)
    {
      if !fault { payments := payments[p.id := p]; }
    }

    method EnsureAccount(a: AccountId)
      requires Valid()
      modifies lc
      ensures Valid() && Durable() == P.EnsureAccount(old(Durable()), a)
    {
      if a !in lc.accounts { var _ := lc.CreateAccounts([L.AccountSpec(a, PSM_ACCOUNT)]); }
    }

    method Release(hold: TransferId)
      requires Valid()
      modifies lc
      ensures Valid() && Durable() == P.Release(old(Durable()), hold)
    {
      hide L.Void;
      if hold in lc.transfers && lc.transfers[hold].pending { var _ := lc.VoidPending(hold); }
    }

    /** CreateIntent: answers with the stored payment, or changes no payment. */
    method CreateIntent(req: IntentRequest, id: PaymentId, gateOpen: bool, providerKnown: bool, env: Env)
      returns (reply: Option<Payment>)
      requires Valid()
      modifies this`payments, lc
      ensures Valid() && Durable() == P.CreateIntent(old(Durable()), req, id, gateOpen, providerKnown, env)
      ensures old(Lawful() && R.FreshId(Durable(), id)) ==> Lawful()
      ensures reply.Some? ==> reply.value == NewPayment(id, req, env) && payments == old(payments)[id := reply.value]
      ensures reply.None? ==> payments == old(payments)
    {
      hide K.Inv, R.FreshId, L.Hold, L.Void, L.CreateAccounts, DuplicateLevy, Hlc.Digits, HoldTransfer;
      if Lawful() && R.FreshId(Durable(), id) {
        R.IntentKeeps(Durable(), req, id, gateOpen, providerKnown, env);
      }
      if !gateOpen || req.tin == "" || req.state == "" || !providerKnown { return None; }
      var period := if req.period == "" then Hlc.Digits(env.year) else req.period;
      var duplicate := FindDuplicateLevy(req.tin, period, req.monthly);
      if duplicate { return None; }
      var amount := LevyOf(env.eval, req.monthly);
      if env.eval.exempt || env.eval.graduate || amount == 0 { return None; }
      var p := NewPayment(id, req, env);
      EnsureAccount(Payer(p.tin));
      EnsureAccount(Collections);
      var r := lc.PendingTransfer(p.hold, HoldTransfer(p));
      if r.Err? { return None; }
      SavePayment(p, env.saveFault);
      if env.saveFault {
        Release(p.hold);
        return None;
      }
      reply := Some(p);
    }

    /** findDuplicateLevy: scans the payments of the tin for a live one in the same period and class. */
    method FindDuplicateLevy(tin: string, period: string, monthly: bool) returns (found: bool)
      ensures found == DuplicateLevy(payments, tin, period, monthly)
    {
      var todo := payments.Keys;
      while todo != {}
        invariant todo <= payments.Keys
        invariant forall id :: id in payments && id !in todo ==>
                    !(payments[id].tin == tin && payments[id].period == period
                      && payments[id].monthly == monthly && Live(payments[id].status))
        decreases |todo|
      {
        var id :| id in todo;
        var p := payments[id];
        if p.tin == tin && p.period == period && p.monthly == monthly && Live(p.status) { return true; }
        todo := todo - {id};
      }
      found := false;
    }

    method Authorise(id: PaymentId, env: Env) returns (ok: bool)
      requires Valid()
      modifies this`payments, lc
      ensures Valid() && Durable() == P.Authorise(old(Durable()), id, env) && ok == AuthoriseAnswers(old(Durable()), id, env)
      ensures old(Lawful()) ==> Lawful()
    {
      hide K.Inv;
      if Lawful() { R.AuthoriseKeeps(Durable(), id, env); }
      if id !in payments || payments[id].status != PendingAuthorisation { return false; }
      var p := payments[id];
      match env.auth {
        case AuthError => return false;
        case AuthApproved(ref) =>
          SavePayment(p.(ref := ref, status := Authorised, updatedAt := env.now), env.saveFault);
        case AuthDeclined(ref) =>
          Release(p.hold);
          SavePayment(p.(ref := ref, status := Failed, updatedAt := env.now), env.saveFault);
      }
      ok := !env.saveFault;
    }

    method Void(id: PaymentId, env: Env) returns (ok: bool)
      requires Valid()
      modifies this`payments, lc
      ensures Valid() && (Durable(), ok) == P.Void(old(Durable()), id, env)
      ensures old(Lawful()) ==> Lawful()
    {
      hide K.Inv, L.Void;
      if Lawful() { R.VoidKeeps(Durable(), id, env); }
      if id !in payments { return false; }
      var p := payments[id];
      if p.status == Voided { return true; }
      if p.status !in {Intent, PendingAuthorisation, Authorised} { return false; }
      var r := lc.VoidPending(p.hold);
      if r.Err? { return false; }
      SavePayment(p.(status := Voided, updatedAt := env.now), env.saveFault);
      ok := !env.saveFault;
    }

    method FailCaptureConfirmed(p: Payment, env: Env)
      requires Valid()
      modifies this`payments, lc
      ensures Valid() && Durable() == FailConfirmed(old(Durable()), p, env)
    {
      Release(p.hold);
      SavePayment(p.(status := Failed, updatedAt := env.now), env.finalFault);
    }

    method CompensateCapture(p: Payment, env: Env)
      requires Valid()
      modifies this`payments, this`comps, lc
      ensures Valid() && Durable() == Compensate(old(Durable()), p, env)
      ensures O.RecordsOne(old(comps), comps, p, old(PostLanded(lc.Model(), p)), env)
    {
      O.CompensationRecords(Durable(), p, env);
      var landed := p.post != NoTransfer && p.post in lc.transfers && !lc.transfers[p.post].pending;
      UndoOnLedger(p, landed);
      comps := comps + [Compensation(p.id, landed, RefundAttempt(p, env))];
      SavePayment(p.(status := Compensated, updatedAt := env.now), env.compFault);
    }

    /** Reverse the post if it landed, then release the hold if it is still pending. */
    method UndoOnLedger(p: Payment, landed: bool)
      requires Valid() && landed == PostLanded(lc.Model(), p)
      modifies lc
      ensures Valid() && lc.Model() == CompensatedBooks(old(lc.Model()), p)
    {
      if landed {
        if Payer(p.tin) !in lc.accounts { var _ := lc.CreateAccounts([L.AccountSpec(Payer(p.tin), PSM_ACCOUNT)]); }
        if Collections !in lc.accounts { var _ := lc.CreateAccounts([L.AccountSpec(Collections, PSM_ACCOUNT)]); }
        var _ := lc.Transfer(PsmCompensation(p.id), ReversalTransfer(p));
      }
      if p.hold in lc.transfers && lc.transfers[p.hold].pending { var _ := lc.VoidPending(p.hold); }
    }

    method PostFeeLeg(p: Payment) returns (ok: bool)
      requires Valid()
      modifies lc
      ensures Valid() && (Durable(), ok) == P.PostFeeLeg(old(Durable()), p)
    {
      if p.fee == 0 { return true; }
      EnsureAccount(Collections);
      EnsureAccount(FeeIncome);
      var r := lc.Transfer(PsmFee(p.id), FeeTransfer(p));
      ok := r.Ok?;
    }

    method IssueCertificate(p: Payment, env: Env) returns (ok: bool)
      requires Valid()
      modifies this`certs
      ensures Valid() && Durable() == Issue(old(Durable()), p, env) && ok == !IssueFails(old(Durable()), p, env)
    {
      if Cert(env.year, p.id) in certs { return true; }
      if env.certFault { return false; }
      certs := certs + {Cert(env.year, p.id)};
      ok := true;
    }

    /** resumeCapture, and the tail of Capture: post, fee leg, certificate, mark. */
    method ResumeCapture(p: Payment, env: Env) returns (ok: bool)
      requires Valid()
      modifies this`payments, this`certs, this`comps, lc
      ensures Valid() && Durable() == Finish(old(Durable()), p, env) && ok == FinishAnswers(old(Durable()), p, env)
    {
      hide L.Post;
      var r := lc.PostPendingAs(p.hold, p.post, p.amount);
      if r.Err? {
        CompensateCapture(p, env);
        return false;
      }
      ok := FinishPosted(p, env);
    }

    method FinishPosted(p: Payment, env: Env) returns (ok: bool)
      requires Valid()
      modifies this`payments, this`certs, this`comps, lc
      ensures Valid() && Durable() == AfterPost(old(Durable()), true, p, env)
      ensures ok == (P.PostFeeLeg(old(Durable()), p).1 && !IssueFails(old(Durable()), p, env) && !env.finalFault)
    {
      hide L.Direct, Opened;
      var feeOk := PostFeeLeg(p);
      if !feeOk {
        CompensateCapture(p, env);
        return false;
      }
      var issued := IssueCertificate(p, env);
      if !issued {
        CompensateCapture(p, env);
        return false;
      }
      SavePayment(p.(status := Captured, updatedAt := env.now), env.finalFault);
      ok := !env.finalFault;
    }

    method Capture(id: PaymentId, env: Env) returns (ok: bool)
      requires Valid()
      modifies this`payments, this`certs, this`comps, lc
      ensures Valid() && Durable() == P.Capture(old(Durable()), id, env) && ok == CaptureAnswers(old(Durable()), id, env)
      ensures old(Lawful() && !R.CaptureLoses(Durable(), id, env)) ==> Lawful()
      // What the provider did not take is not charged, and what it declined fails.
      ensures ok ==> O.TakenAtProvider(env)
      ensures old(Lawful() && O.Capturing(Durable(), id)) && O.SameTerms(old(payments)[id], env.eval) && O.DeclinedAtProvider(env) ==>
                && !ok && certs == old(certs) && PsmPost(id) !in lc.transfers && !HoldPending(lc.Model(), PsmIntent(id))
                && (!env.finalFault ==> payments == old(payments)[id := old(payments)[id].(status := Failed, updatedAt := env.now)])
    {
      hide K.Inv, Finish, FinishAnswers;
      if Lawful() && !R.CaptureLoses(Durable(), id, env) { R.CaptureKeeps(Durable(), id, env); }
      if Lawful() && O.Capturing(Durable(), id) && O.SameTerms(payments[id], env.eval) && O.DeclinedAtProvider(env) {
        O.CaptureDeclined(Durable(), id, env);
      }
      if id !in payments || payments[id].status != Authorised { return false; }
      var p := payments[id];
      var parked := p.(status := CaptureInFlight, updatedAt := env.now);
      if !PackCurrent(p, env.eval) {
        SavePayment(parked, env.saveFault);
        return false;
      }
      var settled: nat;
      if env.capture.Replied? {
        if !env.capture.captured {
          FailCaptureConfirmed(p, env);
          return false;
        }
        settled := env.capture.settled;
      } else {
        // Transport error: the provider may or may not have captured, so verify before failing.
        if env.verify.NoAnswer? {
          SavePayment(parked, env.saveFault);
          return false;
        }
        if env.verify.status != AtCaptured {
          FailCaptureConfirmed(p, env);
          return false;
        }
        settled := env.verify.settled;
      }
      ok := CaptureCharged(p, settled, env);
    }

    /** The provider has the money: persist the point of no return, then finish. */
    method CaptureCharged(p: Payment, settled: nat, env: Env) returns (ok: bool)
      requires Valid()
      modifies this`payments, this`certs, this`comps, lc
      ensures Valid() && Durable() == CaptureTail(old(Durable()), p, settled, env)
      ensures var q := AwaitingPostOf(p, settled, env.now);
              ok == (!env.saveFault && FinishAnswers(Save(old(Durable()), q, false), q, env))
    {
      var q := AwaitingPostOf(p, settled, env.now);
      SavePayment(q, env.saveFault);
      if env.saveFault {
        CompensateCapture(q, env);
        return false;
      }
      ok := ResumeCapture(q, env);
    }

    method OpenDispute(id: PaymentId, env: Env) returns (ok: bool)
      requires Valid()
      modifies this`payments, this`disputes, lc
      ensures Valid() && (Durable(), ok) == P.OpenDispute(old(Durable()), id, env)
      ensures old(Lawful()) ==> Lawful()
    {
      hide K.Inv, L.Hold, L.CreateAccounts;
      if Lawful() { R.OpenDisputeKeeps(Durable(), id, env); }
      if id !in payments { return false; }
      if id in disputes { return true; }
      var p := payments[id];
      if !Disputable(p.status) { return false; }
      EnsureAccount(Collections);
      EnsureAccount(DisputeHold);
      var r := lc.PendingTransfer(PsmDisputeHold(id), DisputeTransfer(p));
      if r.Err? { return false; }
      ok := StoreDispute(p, env);
    }

    /** The dispute record and the payment's new status. */
    method StoreDispute(p: Payment, env: Env) returns (ok: bool)
      requires Valid()
      modifies this`payments, this`disputes
      ensures Valid() && (Durable(), ok) == RecordDispute(old(Durable()), p, env)
    {
      if env.saveFault { return false; }
      disputes := disputes[p.id := Dispute(p.amount, Open, p.status, PsmDisputeHold(p.id))];
      SavePayment(p.(status := Disputed, updatedAt := env.now), env.finalFault);
      ok := !env.finalFault;
    }

    method ResolveDispute(id: PaymentId, outcome: Option<Outcome>, env: Env) returns (ok: bool)
      requires Valid()
      modifies this`payments, this`disputes, lc
      ensures Valid() && (Durable(), ok) == P.ResolveDispute(old(Durable()), id, outcome, env)
      ensures old(Lawful() && !R.Revives(Durable(), id, outcome, env)) ==> Lawful()
    {
      hide K.Inv, L.Void, L.Post;
      if Lawful() && !R.Revives(Durable(), id, outcome, env) { R.ResolveDisputeKeeps(Durable(), id, outcome, env); }
      if outcome.None? || id !in payments || id !in disputes { return false; }
      var p, d := payments[id], disputes[id];
      if d.status.Resolved? { return d.status.outcome == outcome.value; }
      var r: L.Result;
      if outcome.value == Won {
        r := lc.VoidPending(d.hold);
      } else {
        r := lc.PostPendingAs(d.hold, PsmDisputeDebit(id), d.amount);
      }
      if r.Err? { return false; }
      if env.saveFault { return false; }
      disputes := disputes[p.id := d.(status := Resolved(outcome.value))];
      SavePayment(p.(status := if outcome.value == Won then d.prior else ChargedBack, updatedAt := env.now), env.finalFault);
      ok := !env.finalFault;
    }

    method MarkProcessed(hook: Webhook, env: Env)
      requires Valid()
      modifies this`events
      ensures Valid() && Durable() == P.MarkProcessed(old(Durable()), hook, env)
    {
      if !env.eventFault { events := events + {EventId(hook.provider, hook.reference, hook.event)}; }
    }

    /** The payment a webhook names, or else one with its reference and provider. */
    method ResolveHook(hook: Webhook) returns (id: Option<PaymentId>)
      ensures id.Some? ==> ResolvesTo(Durable(), hook, id.value)
      ensures id.None? ==> forall x :: !ResolvesTo(Durable(), hook, x)
    {
      if hook.paymentId in payments { return Some(hook.paymentId); }
      var todo := payments.Keys;
      while todo != {}
        invariant todo <= payments.Keys
        invariant forall x :: x in payments && x !in todo ==> !MatchesReference(Durable(), hook, x)
        decreases |todo|
      {
        var x :| x in todo;
        if payments[x].ref == hook.reference && payments[x].provider == hook.provider { return Some(x); }
        todo := todo - {x};
      }
      id := None;
    }

    /** HandleWebhook: answers with the payment it is about; a webhook that matches none changes nothing. */
    method HandleWebhook(hook: Webhook, env: Env) returns (id: Option<PaymentId>)
      requires Valid()
      modifies this, lc
      ensures Valid()
      ensures id.Some? ==> ResolvesTo(old(Durable()), hook, id.value)
                           && Durable() == P.HandleWebhook(old(Durable()), hook, id.value, env)
      ensures id.None? ==> Durable() == old(Durable()) && forall x :: !ResolvesTo(old(Durable()), hook, x)
      ensures old(Lawful()) && (id.Some? ==> !R.HookLoses(old(Durable()), hook, id.value, env)) ==> Lawful()
      // A charge that webhook and provider do not vouch for changes nothing.
      ensures id.Some? && hook.event == ChargeSuccessful && !E.Collected(old(payments)[id.value].status) ==>
                E.Vouched(hook, old(payments)[id.value].amount, env.valueCheck) || Durable() == old(Durable())
    {
      id := ResolveHook(hook);
      if id.Some? {
        if hook.event == ChargeSuccessful && E.Fresh(Durable(), hook) { E.ChargeHookOutcome(Durable(), hook, id.value, env); }
        if !E.Fresh(Durable(), hook) { E.HookIgnored(Durable(), hook, id.value, env); }
        ApplyWebhook(hook, id.value, env);
      }
    }

    method ApplyWebhook(hook: Webhook, id: PaymentId, env: Env)
      requires Valid() && ResolvesTo(Durable(), hook, id)
      modifies this, lc
      ensures Valid() && Durable() == P.HandleWebhook(old(Durable()), hook, id, env)
      ensures old(Lawful() && !R.HookLoses(Durable(), hook, id, env)) ==> Lawful()
    {
      hide K.Inv;
      if Lawful() && !R.HookLoses(Durable(), hook, id, env) { R.WebhookKeeps(Durable(), hook, id, env); }
      if EventId(hook.provider, hook.reference, hook.event) in events { return; }
      var ok := false;
      match hook.event {
        case ChargeSuccessful => ok := ChargeSucceeded(hook, id, env);
        case ChargeFailed => ok := Void(id, env);
        case AuthorisationVoided => ok := Void(id, env);
        case AuthorisationSuccessful => ok := LateAuthorisation(id, env);
        case DisputeCreate => ok := OpenDispute(id, env);
        case DisputeResolve => ok := ResolveDispute(id, hook.outcome, env);
        case UnknownEvent =>
      }
      if ok { MarkProcessed(hook, env); }
    }

    method ChargeSucceeded(hook: Webhook, id: PaymentId, env: Env) returns (ok: bool)
      requires Valid() && id in payments
      modifies this`payments, this`certs, this`comps, lc
      ensures Valid()
      ensures var w, p := old(Durable()), old(payments)[id];
              if Rank(p.status).Some? && Rank(p.status).value >= 3 then Durable() == w && ok
              else if !ValueVerified(p, hook, env.valueCheck) then Durable() == w && !ok
              else Durable() == P.Capture(w, id, env) && ok == (id in payments && payments[id].status == Captured)
    {
      var rank := Rank(payments[id].status);
      if rank.Some? && rank.value >= 3 { return true; }
      if !ValueVerified(payments[id], hook, env.valueCheck) { return false; }
      var _ := Capture(id, env);
      ok := id in payments && payments[id].status == Captured;
    }

    method LateAuthorisation(id: PaymentId, env: Env) returns (ok: bool)
      requires Valid() && id in payments
      modifies this`payments
      ensures Valid()
      ensures var w, p := old(Durable()), old(payments)[id];
              if Rank(p.status).None? || Rank(p.status).value >= 3 || p.status == Authorised then Durable() == w && ok
              else Durable() == Save(w, p.(status := Authorised, updatedAt := env.now), env.saveFault) && ok == !env.saveFault
    {
      var p := payments[id];
      var rank := Rank(p.status);
      if rank.None? || rank.value >= 3 || p.status == Authorised { return true; }
      SavePayment(p.(status := Authorised, updatedAt := env.now), env.saveFault);
      ok := !env.saveFault;
    }

    // -------------------------------------------------------------- recovery sweeper

    method ResolveCaptureInFlight(p: Payment, env: Env)
      requires Valid()
      modifies this`payments, this`certs, this`comps, lc
      ensures Valid() && Durable() == ResolveInFlight(old(Durable()), p, env)
    {
      if env.verify.NoAnswer? { return; }
      if env.verify.status != AtCaptured {
        FailCaptureConfirmed(p, env);
        return;
      }
      var q := AwaitingPostOf(p, env.verify.settled, env.now);
      SavePayment(q, env.saveFault);
      if !env.saveFault { var _ := ResumeCapture(q, env); }
    }

    method VoidFailedHold(p: Payment, env: Env)
      requires Valid()
      modifies this`payments, lc
      ensures Valid() && Durable() == P.VoidFailedHold(old(Durable()), p, env)
    {
      if p.hold in lc.transfers && lc.transfers[p.hold].pending {
        Release(p.hold);
        SavePayment(p.(updatedAt := env.now), env.saveFault);
      }
    }

    method RetryFailedRefund(p: Payment, env: Env)
      requires Valid()
      modifies this`comps
      ensures Valid() && Durable() == P.RetryFailedRefund(old(Durable()), p, env)
    {
      var out: seq<Compensation> := [];
      for i := 0 to |comps|
        invariant out == RetryRefunds(comps[..i], p, env) && comps == old(comps)
      {
        assert comps[..i + 1][..i] == comps[..i];
        var c := comps[i];
        if c.pay == p.id && c.refund == RefundFailed && p.ref != "" && (env.refundOk || env.voidOk) {
          c := c.(refund := RefundRetried);
        }
        out := out + [c];
      }
      assert comps[..|comps|] == comps;
      comps := out;
    }

    method SweepPayment(p: Payment, env: Env)
      requires Valid()
      modifies this`payments, this`certs, this`comps, lc
      ensures Valid() && Durable() == SweepOne(old(Durable()), p, env)
    {
      match p.status
      case Captured =>
        if p.post != NoTransfer && p.post in lc.transfers && !lc.transfers[p.post].pending {
          SavePayment(p.(status := Settled, updatedAt := env.now), env.saveFault);
        }
      case AwaitingPost =>
        if p.post == NoTransfer { CompensateCapture(p, env); } else { var _ := ResumeCapture(p, env); }
      case Intent => ExpireIntent(p, env);
      case PendingAuthorisation => ExpireIntent(p, env);
      case CaptureInFlight => ResolveCaptureInFlight(p, env);
      case Failed => VoidFailedHold(p, env);
      case Compensated =>
        VoidFailedHold(p, env);
        RetryFailedRefund(p, env);
      case _ =>
    }

    method ExpireIntent(p: Payment, env: Env)
      requires Valid()
      modifies this`payments, lc
      ensures Valid() && Durable() == Expire(old(Durable()), p, env)
    {
      if env.now - p.updatedAt < INTENT_TTL { return; }
      Release(p.hold);
      SavePayment(p.(status := Expired, updatedAt := env.now), env.saveFault);
    }

    /** SweepOnce over the listing it took at its start. */
    method SweepOnce(listed: seq<Payment>, envs: PaymentId -> Env)
      requires Valid()
      modifies this`payments, this`certs, this`comps, lc
      ensures Valid() && Durable() == Sweep(old(Durable()), listed, envs)
      ensures old(Lawful() && T.Listed(Durable(), listed) && !T.SomeRowLoses(Durable(), listed, envs)) ==> Lawful()
    {
      hide K.Inv;
      if Lawful() && T.Listed(Durable(), listed) && !T.SomeRowLoses(Durable(), listed, envs) { T.SweepKeeps(Durable(), listed, envs); }
      for i := 0 to |listed|
        invariant Valid() && Durable() == Sweep(old(Durable()), listed[..i], envs)
      {
        assert listed[..i + 1][..i] == listed[..i];
        SweepPayment(listed[i], envs(listed[i].id));
      }
      assert listed[..|listed|] == listed;
    }
  }
}
