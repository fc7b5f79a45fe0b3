/**
 The levy payment saga (services/presumptive/payments.go, recovery.go and
 disputes.go) as functions on the durable world: stored payments, the ledger,
 certificates, compensations, disputes and processed webhook events.

 Provider answers, clock readings, rule-pack evaluations and store faults are
 parameters and may be anything. A process may die: `life` counts the durable
 calls it still makes, and every call after its death has no effect, so an
 operation run with `For(k)` is that operation cut off after its k-th durable
 call. compensateCapture is a single call.
 */
module Payments {
  import opened Prelude
  import opened Ids
  import L = Ledger
  import Hlc

  // ---------------------------------------------------------------- records

  datatype Status =
    | Intent
    | PendingAuthorisation
    | Authorised
    | CaptureInFlight
    | AwaitingPost        // captured_awaiting_post
    | Captured
    | Settled
    | Disputed
    | ChargedBack
    | Voided
    | Failed
    | Expired
    | Compensated

  datatype Payment = Payment(
    id: PaymentId, tin: string, period: string, monthly: bool, provider: string,
    amount: nat, pack: string, status: Status,
    hold: TransferId, post: TransferId, fee: nat, ref: string, updatedAt: int)

  datatype Cert = Cert(year: nat, pay: PaymentId)

  datatype RefundMark = Refunded | RefundFailed | RefundSkipped | RefundRetried

  datatype Compensation = Compensation(pay: PaymentId, reversed: bool, refund: RefundMark)

  datatype Outcome = Won | Lost

  datatype DisputeStatus = Open | Resolved(outcome: Outcome)

  datatype Dispute = Dispute(amount: nat, status: DisputeStatus, prior: Status, hold: TransferId)

  datatype Event =
    | ChargeSuccessful | ChargeFailed | AuthorisationVoided | AuthorisationSuccessful
    | DisputeCreate | DisputeResolve | UnknownEvent

  datatype EventId = EventId(provider: string, reference: string, event: Event)

  datatype World = World(
    payments: map<PaymentId, Payment>,
    books: L.State,
    certs: set<Cert>,
    comps: seq<Compensation>,
    disputes: map<PaymentId, Dispute>,
    events: set<EventId>,
    life: Life)

  const INTENT_TTL := 1800

  const PSM_ACCOUNT := L.Account(L.LEDGER_PSM_PAYMENTS, false, false)

  /** duplicateLevyStatuses: the states that block a second payment of the same levy. */
  predicate Live(s: Status)
  {
    s in {Intent, PendingAuthorisation, Authorised, AwaitingPost, CaptureInFlight, Captured, Settled, Disputed}
  }

  /** paymentRank: the monotonic chain; side states have no rank. */
  function Rank(s: Status): Option<nat>
  {
    match s
    case Intent => Some(0)
    case PendingAuthorisation => Some(1)
    case Authorised => Some(2)
    case AwaitingPost => Some(3)
    case Captured => Some(4)
    case Settled => Some(5)
    case _ => None
  }

  // ---------------------------------------------------------------- what the environment answers

  datatype Evaluation = Evaluation(exempt: bool, graduate: bool, annual: nat, monthlyLevy: nat, adminFee: nat, pack: string)

  function LevyOf(e: Evaluation, monthly: bool): nat
  {
    (if monthly then e.monthlyLevy else e.annual) + e.adminFee
  }

  datatype ProviderStatus = AtAuthorised | AtCaptured | AtFailed

  datatype VerifyAnswer = NoAnswer | Says(status: ProviderStatus, amount: nat, settled: nat, currencyOk: bool)

  datatype CaptureAnswer = TransportError | Replied(captured: bool, settled: nat)

  datatype AuthAnswer = AuthError | AuthApproved(ref: string) | AuthDeclined(ref: string)

  /**
   Everything an operation may observe: clock, pack, provider answers, and which store
   writes fail. A webhook asks the provider twice: `valueCheck` answers the check of
   its value, `verify` the question Capture asks after a transport error.
   */
  datatype Env = Env(
    now: int, year: nat, eval: Evaluation,
    auth: AuthAnswer, capture: CaptureAnswer, verify: VerifyAnswer, valueCheck: VerifyAnswer,
    refundOk: bool, voidOk: bool,
    saveFault: bool, certFault: bool, finalFault: bool, compFault: bool, eventFault: bool)

  // ---------------------------------------------------------------- durable calls

  predicate Alive(w: World)
  {
    w.life != For(0)
  }

  function Spend(w: World): World
  {
    if w.life.For? && w.life.calls > 0 then w.(life := For(w.life.calls - 1)) else w
  }

  /** A ledger call that leaves `books`. */
  function Book(w: World, books: L.State): World
  {
    if Alive(w) then Spend(w).(books := books) else w
  }

  /** Put("payments", ...); a faulted write changes nothing. */
  function Save(w: World, p: Payment, fault: bool): World
  {
    if !Alive(w) then w
    else if fault then Spend(w)
    else Spend(w).(payments := w.payments[p.id := p])
  }

  function Opened(books: L.State, a: AccountId): L.State
  {
    if a in books.accounts then books else L.CreateAccounts(books, [L.AccountSpec(a, PSM_ACCOUNT)]).0
  }

  function EnsureAccount(w: World, a: AccountId): World
  {
    if a in w.books.accounts then w else Book(w, Opened(w.books, a))
  }

  predicate HoldPending(books: L.State, hold: TransferId)
  {
    hold in books.transfers && books.transfers[hold].pending
  }

  /** Lookup, then VoidPending when still pending. */
  function Release(w: World, hold: TransferId): World
  {
    if HoldPending(w.books, hold) then Book(w, L.Void(w.books, hold).0) else w
  }

  function HoldTransfer(p: Payment): L.Transfer
  {
    L.Transfer(Payer(p.tin), Collections, L.LEDGER_PSM_PAYMENTS, L.CODE_AUTHORISE, p.amount, true)
  }

  function FeeTransfer(p: Payment): L.Transfer
  {
    L.Transfer(Collections, FeeIncome, L.LEDGER_PSM_PAYMENTS, L.CODE_SETTLE, p.fee, false)
  }

  function ReversalTransfer(p: Payment): L.Transfer
  {
    L.Transfer(Collections, Payer(p.tin), L.LEDGER_PSM_PAYMENTS, L.CODE_VOID, p.amount, false)
  }

  function DisputeTransfer(p: Payment): L.Transfer
  {
    L.Transfer(Collections, DisputeHold, L.LEDGER_PSM_PAYMENTS, L.CODE_HOLD, p.amount, true)
  }

  // ---------------------------------------------------------------- intent, authorise, void

  datatype IntentRequest = IntentRequest(tin: string, state: string, period: string, monthly: bool, provider: string)

  /** findDuplicateLevy: a live payment already covers (tin, period, instalment class). */
  predicate DuplicateLevy(payments: map<PaymentId, Payment>, tin: string, period: string, monthly: bool)
  {
    exists id :: id in payments && payments[id].tin == tin && payments[id].period == period
                 && payments[id].monthly == monthly && Live(payments[id].status)
  }

  /** The period an intent is for: the running year unless the caller names one. */
  function PeriodOf(req: IntentRequest, env: Env): string
  {
    if req.period == "" then Hlc.Digits(env.year) else req.period
  }

  function NewPayment(id: PaymentId, req: IntentRequest, env: Env): Payment
  {
    Payment(id, req.tin, PeriodOf(req, env), req.monthly, req.provider, LevyOf(env.eval, req.monthly), env.eval.pack,
            PendingAuthorisation, PsmIntent(id), NoTransfer, 0, "", env.now)
  }

  /** CreateIntent below its idempotency claim (see `Intents`); `id` is the freshly drawn payment id. */
  function CreateIntent(w: World, req: IntentRequest, id: PaymentId, gateOpen: bool, providerKnown: bool, env: Env): World
  {
    if !gateOpen || req.tin == "" || req.state == "" || !providerKnown then w
    else if DuplicateLevy(w.payments, req.tin, PeriodOf(req, env), req.monthly) then w
    else if env.eval.exempt || env.eval.graduate || LevyOf(env.eval, req.monthly) == 0 then w
    else
      var p := NewPayment(id, req, env);
      var w1 := EnsureAccount(EnsureAccount(w, Payer(p.tin)), Collections);
      var (books, r) := L.Hold(w1.books, p.hold, HoldTransfer(p));
      if r.Err? then w1
      else
        var w2 := Book(w1, books);
        var w3 := Save(w2, p, env.saveFault);
        // The hold landed but the payment row did not: compensating void.
        if env.saveFault then Release(w3, p.hold) else w3
  }

  function Authorise(w: World, id: PaymentId, env: Env): World
  {
    if id !in w.payments || w.payments[id].status != PendingAuthorisation then w
    else
      var p := w.payments[id];
      match env.auth
      case AuthError => w
      case AuthApproved(ref) => Save(w, p.(ref := ref, status := Authorised, updatedAt := env.now), env.saveFault)
      case AuthDeclined(ref) =>
        Save(Release(w, p.hold), p.(ref := ref, status := Failed, updatedAt := env.now), env.saveFault)
  }

  /** Authorise answers with the payment: it was waiting for it, the provider answered and the answer was stored. */
  predicate AuthoriseAnswers(w: World, id: PaymentId, env: Env)
  {
    id in w.payments && w.payments[id].status == PendingAuthorisation && !env.auth.AuthError? && !env.saveFault
  }

  /** Void: only before capture. Answers whether the call succeeded. */
  function Void(w: World, id: PaymentId, env: Env): (World, bool)
  {
    if id !in w.payments then (w, false)
    else
      var p := w.payments[id];
      if p.status == Voided then (w, true)
      else if p.status !in {Intent, PendingAuthorisation, Authorised} then (w, false)
      else
        var (books, r) := L.Void(w.books, p.hold);
        if r.Err? then (w, false)
        else (Save(Book(w, books), p.(status := Voided, updatedAt := env.now), env.saveFault), !env.saveFault)
  }

  // ---------------------------------------------------------------- capture

  /** FeeKobo = AmountKobo - SettledKobo in uint64 arithmetic. */
  function FeeOf(amount: nat, settled: nat): nat
  {
    (amount - settled) % UINT64
  }

  /** failCaptureConfirmed. */
  function FailConfirmed(w: World, p: Payment, env: Env): World
  {
    Save(Release(w, p.hold), p.(status := Failed, updatedAt := env.now), env.finalFault)
  }

  function RefundAttempt(p: Payment, env: Env): RefundMark
  {
    if p.ref == "" then RefundSkipped else if env.refundOk || env.voidOk then Refunded else RefundFailed
  }

  /** The post this payment names is on the ledger. */
  predicate PostLanded(books: L.State, p: Payment)
  {
    p.post != NoTransfer && p.post in books.transfers && !books.transfers[p.post].pending
  }

  /** The ledger part of compensateCapture: reverse a landed post, release a pending hold. */
  function CompensatedBooks(books: L.State, p: Payment): L.State
  {
    var reversed :=
      if PostLanded(books, p)
      then L.Direct(Opened(Opened(books, Payer(p.tin)), Collections), PsmCompensation(p.id), ReversalTransfer(p)).0
      else books;
    if HoldPending(reversed, p.hold) then L.Void(reversed, p.hold).0 else reversed
  }

  /** compensateCapture, one durable call; with `compFault` its write of the payment is lost. */
  function Compensate(w: World, p: Payment, env: Env): World
  {
    if !Alive(w) then w
    else
      var w1 := Spend(w).(books := CompensatedBooks(w.books, p),
                          comps := w.comps + [Compensation(p.id, PostLanded(w.books, p), RefundAttempt(p, env))]);
      if env.compFault then w1
      else w1.(payments := w.payments[p.id := p.(status := Compensated, updatedAt := env.now)])
  }

  /** postFeeLeg: the state it leaves, and whether it succeeded. */
  function PostFeeLeg(w: World, p: Payment): (World, bool)
  {
    if p.fee == 0 then (w, true)
    else
      var w1 := EnsureAccount(EnsureAccount(w, Collections), FeeIncome);
      var (books, r) := L.Direct(w1.books, PsmFee(p.id), FeeTransfer(p));
      (Book(w1, books), r.Ok?)
  }

  /** CertificateService.Issue: a certificate already stored under this year's serial is returned unchanged. */
  predicate IssueFails(w: World, p: Payment, env: Env)
  {
    env.certFault && Cert(env.year, p.id) !in w.certs
  }

  function Issue(w: World, p: Payment, env: Env): World
  {
    if !Alive(w) || Cert(env.year, p.id) in w.certs then w
    else if env.certFault then Spend(w)
    else Spend(w).(certs := w.certs + {Cert(env.year, p.id)})
  }

  /** Post, fee leg, certificate, mark: the tail of Capture, and the whole of resumeCapture. */
  function Finish(w: World, p: Payment, env: Env): World
  {
    var (books, r) := L.Post(w.books, p.hold, p.post, p.amount);
    AfterPost(Book(w, books), r.Ok?, p, env)
  }

  function AfterPost(w: World, posted: bool, p: Payment, env: Env): World
  {
    if !posted then Compensate(w, p, env)
    else
      var (w1, feeOk) := PostFeeLeg(w, p);
      AfterFee(w1, feeOk, p, env)
  }

  function AfterFee(w: World, feeOk: bool, p: Payment, env: Env): World
  {
    if !feeOk then Compensate(w, p, env)
    else
      var w1 := Issue(w, p, env);
      if IssueFails(w, p, env) then Compensate(w1, p, env)
      else Save(w1, p.(status := Captured, updatedAt := env.now), env.finalFault)
  }

  function AwaitingPostOf(p: Payment, settled: nat, now: int): Payment
  {
    p.(status := AwaitingPost, post := PsmPost(p.id), fee := FeeOf(p.amount, settled), updatedAt := now)
  }

  /** The provider took the money: persist the point of no return, then finish or compensate. */
  function CaptureTail(w: World, p: Payment, settled: nat, env: Env): World
  {
    var p1 := AwaitingPostOf(p, settled, env.now);
    var w1 := Save(w, p1, env.saveFault);
    if env.saveFault then Compensate(w1, p1, env) else Finish(w1, p1, env)
  }

  /** revalidatePack: the pack and amount pinned at intent still hold. */
  predicate PackCurrent(p: Payment, eval: Evaluation)
  {
    eval.pack == p.pack && LevyOf(eval, p.monthly) == p.amount
  }

  function Park(w: World, p: Payment, env: Env): World
  {
    Save(w, p.(status := CaptureInFlight, updatedAt := env.now), env.saveFault)
  }

  /** What the provider did with the capture, as far as the service can tell. */
  datatype Charge = Charged(settled: nat) | Refused | Unclear

  function ChargeSeen(env: Env): Charge
  {
    match env.capture
    case Replied(true, settled) => Charged(settled)
    case Replied(false, _) => Refused
    case TransportError =>
      match env.verify
      case NoAnswer => Unclear
      case Says(status, _, settled, _) => if status == AtCaptured then Charged(settled) else Refused
  }

  function Capture(w: World, id: PaymentId, env: Env): World
  {
    if id !in w.payments || w.payments[id].status != Authorised then w
    else
      var p := w.payments[id];
      if !PackCurrent(p, env.eval) then Park(w, p, env)
      else
        match ChargeSeen(env)
        case Charged(settled) => CaptureTail(w, p, settled, env)
        case Refused => FailConfirmed(w, p, env)
        case Unclear => Park(w, p, env)
  }

  /** Post, fee leg, certificate and mark all succeed. */
  predicate FinishAnswers(w: World, p: Payment, env: Env)
  {
    var (books, r) := L.Post(w.books, p.hold, p.post, p.amount);
    r.Ok? && PostFeeLeg(Book(w, books), p).1 && !IssueFails(w, p, env) && !env.finalFault
  }

  /** Capture answers with payment and certificate, not with an error. */
  predicate CaptureAnswers(w: World, id: PaymentId, env: Env)
  {
    && id in w.payments && w.payments[id].status == Authorised && PackCurrent(w.payments[id], env.eval)
    && ChargeSeen(env).Charged? && !env.saveFault
    && var q := AwaitingPostOf(w.payments[id], ChargeSeen(env).settled, env.now);
       FinishAnswers(Save(w, q, false), q, env)
  }

  // ---------------------------------------------------------------- disputes

  predicate Disputable(s: Status)
  {
    s in {Captured, AwaitingPost, Settled}
  }

  /** OpenDispute: hold the disputed amount, then record the dispute, then mark the payment. */
  function OpenDispute(w: World, id: PaymentId, env: Env): (World, bool)
  {
    if id !in w.payments then (w, false)
    else if id in w.disputes then (w, true)
    else if !Disputable(w.payments[id].status) then (w, false)
    else
      var p := w.payments[id];
      var w1 := EnsureAccount(EnsureAccount(w, Collections), DisputeHold);
      var (books, r) := L.Hold(w1.books, PsmDisputeHold(id), DisputeTransfer(p));
      if r.Err? then (w1, false)
      else
        RecordDispute(Book(w1, books), p, env)
  }

  function RecordDispute(w: World, p: Payment, env: Env): (World, bool)
  {
    var w1 := SaveDispute(w, p.id, Dispute(p.amount, Open, p.status, PsmDisputeHold(p.id)), env.saveFault);
    if env.saveFault then (w1, false)
    else (Save(w1, p.(status := Disputed, updatedAt := env.now), env.finalFault), !env.finalFault)
  }

  function SaveDispute(w: World, id: PaymentId, d: Dispute, fault: bool): World
  {
    if !Alive(w) then w else if fault then Spend(w) else Spend(w).(disputes := w.disputes[id := d])
  }

  /** ResolveDispute: won releases the hold and restores the payment; lost posts it as a chargeback. */
  function ResolveDispute(w: World, id: PaymentId, outcome: Option<Outcome>, env: Env): (World, bool)
  {
    if outcome.None? || id !in w.payments || id !in w.disputes then (w, false)
    else
      var p, d := w.payments[id], w.disputes[id];
      if d.status.Resolved? then (w, d.status.outcome == outcome.value)
      else
        var (books, r) := if outcome.value == Won then L.Void(w.books, d.hold)
                          else L.Post(w.books, d.hold, PsmDisputeDebit(id), d.amount);
        if r.Err? then (w, false) else CloseDispute(Book(w, books), p, d, outcome.value, env)
  }

  function CloseDispute(w: World, p: Payment, d: Dispute, outcome: Outcome, env: Env): (World, bool)
  {
    var w1 := SaveDispute(w, p.id, d.(status := Resolved(outcome)), env.saveFault);
    if env.saveFault then (w1, false)
    else
      (Save(w1, p.(status := if outcome == Won then d.prior else ChargedBack, updatedAt := env.now), env.finalFault),
       !env.finalFault)
  }

  // ---------------------------------------------------------------- webhooks

  datatype Webhook = Webhook(
    provider: string, reference: string, event: Event, paymentId: PaymentId,
    amount: nat, currencyOk: bool, outcome: Option<Outcome>)

  predicate MatchesReference(w: World, hook: Webhook, id: PaymentId)
  {
    id in w.payments && w.payments[id].ref == hook.reference && w.payments[id].provider == hook.provider
  }

  /** The payment a webhook is about: the one it names, else one the reference scan found. */
  predicate ResolvesTo(w: World, hook: Webhook, id: PaymentId)
  {
    if hook.paymentId in w.payments then id == hook.paymentId else MatchesReference(w, hook, id)
  }

  /** verifyWebhookValue: payload and provider agree with the stored intent. */
  predicate ValueVerified(p: Payment, hook: Webhook, verify: VerifyAnswer)
  {
    && (hook.amount == 0 || hook.amount == p.amount)
    && hook.currencyOk
    && verify.Says?
    && verify.status != AtFailed
    && (verify.amount == 0 || verify.amount == p.amount)
    && verify.currencyOk
  }

  function MarkProcessed(w: World, hook: Webhook, env: Env): World
  {
    if !Alive(w) then w
    else if env.eventFault then Spend(w)
    else Spend(w).(events := w.events + {EventId(hook.provider, hook.reference, hook.event)})
  }

  function HandleWebhook(w: World, hook: Webhook, id: PaymentId, env: Env): World
  {
    if !ResolvesTo(w, hook, id) then w
    else if EventId(hook.provider, hook.reference, hook.event) in w.events then w
    else
      var p := w.payments[id];
      match hook.event
      case ChargeSuccessful =>
        if Rank(p.status).Some? && Rank(p.status).value >= 3 then MarkProcessed(w, hook, env)
        else if !ValueVerified(p, hook, env.valueCheck) then w
        else
          var w1 := Capture(w, id, env);
          if id in w1.payments && w1.payments[id].status == Captured then MarkProcessed(w1, hook, env) else w1
      case ChargeFailed =>
        var (w1, ok) := Void(w, id, env);
        if ok then MarkProcessed(w1, hook, env) else w1
      case AuthorisationVoided =>
        var (w1, ok) := Void(w, id, env);
        if ok then MarkProcessed(w1, hook, env) else w1
      case AuthorisationSuccessful =>
        if Rank(p.status).None? || Rank(p.status).value >= 3 || p.status == Authorised then MarkProcessed(w, hook, env)
        else
          var w1 := Save(w, p.(status := Authorised, updatedAt := env.now), env.saveFault);
          if env.saveFault then w1 else MarkProcessed(w1, hook, env)
      case DisputeCreate =>
        var (w1, ok) := OpenDispute(w, id, env);
        if ok then MarkProcessed(w1, hook, env) else w1
      case DisputeResolve =>
        var (w1, ok) := ResolveDispute(w, id, hook.outcome, env);
        if ok then MarkProcessed(w1, hook, env) else w1
      case UnknownEvent => w
  }

  // ---------------------------------------------------------------- recovery sweep

  function Settle(w: World, p: Payment, env: Env): World
  {
    if PostLanded(w.books, p) then Save(w, p.(status := Settled, updatedAt := env.now), env.saveFault) else w
  }

  function Resume(w: World, p: Payment, env: Env): World
  {
    if p.post == NoTransfer then Compensate(w, p, env) else Finish(w, p, env)
  }

  function Expire(w: World, p: Payment, env: Env): World
  {
    if env.now - p.updatedAt < INTENT_TTL then w
    else Save(Release(w, p.hold), p.(status := Expired, updatedAt := env.now), env.saveFault)
  }

  function ResolveInFlight(w: World, p: Payment, env: Env): World
  {
    match env.verify
    case NoAnswer => w
    case Says(status, _, settled, _) =>
      if status != AtCaptured then FailConfirmed(w, p, env)
      else
        var p1 := AwaitingPostOf(p, settled, env.now);
        var w1 := Save(w, p1, env.saveFault);
        if env.saveFault then w1 else Resume(w1, p1, env)
  }

  function VoidFailedHold(w: World, p: Payment, env: Env): World
  {
    if HoldPending(w.books, p.hold) then Save(Release(w, p.hold), p.(updatedAt := env.now), env.saveFault) else w
  }

  /** retryFailedRefund: every failed refund marker of the payment is retried. */
  function RetryRefunds(comps: seq<Compensation>, p: Payment, env: Env): (r: seq<Compensation>)
    ensures |r| == |comps|
    ensures forall i :: 0 <= i < |comps| ==> r[i].pay == comps[i].pay && r[i].reversed == comps[i].reversed
    ensures forall i :: 0 <= i < |comps| && (comps[i].pay != p.id || comps[i].refund != RefundFailed) ==> r[i] == comps[i]
    ensures forall i :: 0 <= i < |comps| && comps[i].pay == p.id && p.ref != "" && (env.refundOk || env.voidOk) ==>
              r[i].refund != RefundFailed
  {
    if comps == [] then []
    else
      var c := comps[|comps| - 1];
      RetryRefunds(comps[..|comps| - 1], p, env)
        + [if c.pay == p.id && c.refund == RefundFailed && p.ref != "" && (env.refundOk || env.voidOk)
           then c.(refund := RefundRetried) else c]
  }

  function RetryFailedRefund(w: World, p: Payment, env: Env): World
  {
    if Alive(w) then Spend(w).(comps := RetryRefunds(w.comps, p, env)) else w
  }

  /** One payment of SweepOnce. */
  function SweepOne(w: World, p: Payment, env: Env): World
  {
    match p.status
    case Captured => Settle(w, p, env)
    case AwaitingPost => Resume(w, p, env)
    case Intent => Expire(w, p, env)
    case PendingAuthorisation => Expire(w, p, env)
    case CaptureInFlight => ResolveInFlight(w, p, env)
    case Failed => VoidFailedHold(w, p, env)
    case Compensated => RetryFailedRefund(VoidFailedHold(w, p, env), p, env)
    case _ => w
  }

  /** SweepOnce over the listed payments, in listing order. */
  function Sweep(w: World, listed: seq<Payment>, env: PaymentId -> Env): World
  {
    if listed == [] then w
    else SweepOne(Sweep(w, listed[..|listed| - 1], env), listed[|listed| - 1], env(listed[|listed| - 1].id))
  }

  // ---------------------------------------------------------------- runs

  datatype Op =
    | DoIntent(req: IntentRequest, id: PaymentId, gateOpen: bool, providerKnown: bool, env: Env)
    | DoAuthorise(id: PaymentId, env: Env)
    | DoCapture(id: PaymentId, env: Env)
    | DoVoid(id: PaymentId, env: Env)
    | DoWebhook(hook: Webhook, id: PaymentId, env: Env)
    | DoSweep(listed: seq<Payment>, envs: PaymentId -> Env)
    | DoElsewhere(op: L.Op)  // another service uses the same ledger

  /** A process with the given life runs one operation. */
  function Step(w: World, op: Op, life: Life): World
  {
    var v := w.(life := life);
    match op
    case DoIntent(req, id, gateOpen, providerKnown, env) => CreateIntent(v, req, id, gateOpen, providerKnown, env)
    case DoAuthorise(id, env) => Authorise(v, id, env)
    case DoCapture(id, env) => Capture(v, id, env)
    case DoVoid(id, env) => Void(v, id, env).0
    case DoWebhook(hook, id, env) => HandleWebhook(v, hook, id, env)
    case DoSweep(listed, envs) => Sweep(v, listed, envs)
    case DoElsewhere(op) => v.(books := L.Step(v.books, op))
  }
}
