/** What disputes, webhooks and swept rows do to a payment, said in terms of their inputs. */
module PaymentEvents {
  import opened Prelude
  import opened Ids
  import opened Payments
  import opened PaymentLaws
  import opened PaymentRuns
  import opened PaymentTheorems
  import opened PaymentOutcomes
  import L = Ledger
  import K = LedgerLaws

  // ---------------------------------------------------------------- disputes

  /** A payment on which the money was, or is about to be, collected. */
  predicate Collected(s: Status)
  {
    s == Captured || s == AwaitingPost || s == Settled
  }

  /** The dispute hold can be placed: it never was, or it still stands. */
  predicate Holdable(b: L.State, id: PaymentId)
  {
    PsmDisputeHold(id) !in b.transfers || b.transfers[PsmDisputeHold(id)].pending
  }

  lemma {:induction false} DisputePlaced(b: L.State, p: Payment)
    requires Ready(b, Collections) && Ready(b, DisputeHold) && p.amount > 0
    requires PsmDisputeHold(p.id) in b.transfers ==> b.transfers[PsmDisputeHold(p.id)].(pending := true) == DisputeTransfer(p)
    ensures var (books, r) := L.Hold(b, PsmDisputeHold(p.id), DisputeTransfer(p));
            && (r.Ok? <==> Holdable(b, p.id))
            && (r.Ok? ==> PsmDisputeHold(p.id) in books.transfers && books.transfers[PsmDisputeHold(p.id)] == DisputeTransfer(p))
  {
  }

  /** Opening a dispute holds the whole amount out of collections, keeps the status it found and marks the payment. */
  lemma {:induction false} OpenDisputeOutcome(w: World, id: PaymentId, env: Env)
    requires Inv(w) && w.life == Forever
    ensures var (v, ok) := OpenDispute(w, id, env);
            if id !in w.payments || id in w.disputes || !Collected(w.payments[id].status) then
              v == w && (ok <==> id in w.payments && id in w.disputes)
            else
              var p := w.payments[id];
              && v == w.(books := v.books, disputes := v.disputes, payments := v.payments)
              && v.disputes == (if env.saveFault || !Holdable(w.books, id) then w.disputes
                                else w.disputes[id := Dispute(p.amount, Open, p.status, PsmDisputeHold(id))])
              && v.payments == (if !ok then w.payments else w.payments[id := p.(status := Disputed, updatedAt := env.now)])
              && (ok <==> Holdable(w.books, id) && !env.saveFault && !env.finalFault)
              && (Holdable(w.books, id) ==>
                    && PsmDisputeHold(id) in v.books.transfers
                    && v.books.transfers[PsmDisputeHold(id)]
                         == L.Transfer(Collections, DisputeHold, 200, 6, p.amount, true))
  {
    hide Inv, Agrees, DisputeAgrees, EnsureAccount, L.Hold, RecordDispute;
    if id in w.payments && id !in w.disputes && Collected(w.payments[id].status) {
      RowAgrees(w, id);
      var p := w.payments[id];
      AmountPositive(w, p);
      DisputeHoldRecord(w, p);
      var w0 := EnsureAccount(w, Collections);
      var w1 := EnsureAccount(w0, DisputeHold);
      EnsureKeeps(w, Collections);
      EnsureKeeps(w0, DisputeHold);
      EnsureOnly(w, Collections);
      EnsureOnly(w0, DisputeHold);
      Lasting(w, Collections);
      Lasting(w0, DisputeHold);
      PlainAccounts(w1);
      DisputePlaced(w1.books, p);
      var u := Book(w1, L.Hold(w1.books, PsmDisputeHold(id), DisputeTransfer(p)).0);
      assert u == w.(books := u.books);
      DisputeStored(u, p, env);
    }
  }

  /** The two writes of a dispute whose hold is placed. */
  lemma {:induction false} DisputeStored(w: World, p: Payment, env: Env)
    requires w.life == Forever
    ensures var (v, ok) := RecordDispute(w, p, env);
            && ok == (!env.saveFault && !env.finalFault)
            && v == w.(disputes := if env.saveFault then w.disputes
                                   else w.disputes[p.id := Dispute(p.amount, Open, p.status, PsmDisputeHold(p.id))],
                       payments := if !ok then w.payments else w.payments[p.id := p.(status := Disputed, updatedAt := env.now)])
  {
  }

  lemma {:induction false} AmountPositive(w: World, p: Payment)
    requires Agrees(w, p)
    ensures p.amount > 0
  {
  }

  lemma {:induction false} DisputeHoldRecord(w: World, p: Payment)
    requires DisputeAgrees(w, p)
    ensures var hold := PsmDisputeHold(p.id);
            hold in w.books.transfers ==> w.books.transfers[hold].(pending := true) == DisputeTransfer(p)
  {
  }

  lemma {:induction false} PlainAccounts(w: World)
    requires Inv(w)
    ensures PlainAt(w.books, Collections) && PlainAt(w.books, DisputeHold) && PlainAt(w.books, FeeIncome)
  {
  }

  lemma {:induction false} Lasting(w: World, a: AccountId)
    requires w.life == Forever
    ensures EnsureAccount(w, a).life == Forever
  {
    hide Opened;
  }

  /** The hold of an open dispute can be consumed this way: it stands, or a lost dispute's debit already landed. */
  predicate Consumable(b: L.State, id: PaymentId, outcome: Outcome)
  {
    HoldPending(b, PsmDisputeHold(id)) || (outcome == Lost && PsmDisputeDebit(id) in b.transfers)
  }

  lemma {:induction false} DisputeConsumed(w: World, p: Payment, outcome: Outcome)
    requires Inv(w) && Stored(w, p) && p.id in w.disputes && w.disputes[p.id].status == Open
    ensures var hold, debit := PsmDisputeHold(p.id), PsmDisputeDebit(p.id);
            var (b, r) := if outcome == Won then L.Void(w.books, hold) else L.Post(w.books, hold, debit, p.amount);
            && (r.Ok? <==> Consumable(w.books, p.id, outcome))
            && (r.Ok? ==> !HoldPending(b, hold) && (outcome == Won ==> debit !in b.transfers)
                          && (outcome == Lost ==> debit in b.transfers && b.transfers[debit] == DisputeTransfer(p).(pending := false)))
  {
    hide K.Moves, K.AmountMoved, AgreesOn, LegAgrees;
    RowAgrees(w, p.id);
    PlainAccounts(w);
    assert LegAgrees(w.books, PsmDisputeDebit(p.id), DisputeTransfer(p).(pending := false));
    assert PsmDisputeDebit(p.id) in w.books.transfers ==> w.books.transfers[PsmDisputeDebit(p.id)] == DisputeTransfer(p).(pending := false) by {
      LegRecord(w.books, PsmDisputeDebit(p.id), DisputeTransfer(p).(pending := false));
    }
    AmountPositive(w, p);
    DisputeAccounts(w, p);
    hide Inv;
  }

  lemma {:induction false} LegRecord(b: L.State, id: TransferId, t: L.Transfer)
    requires LegAgrees(b, id, t)
    ensures id in b.transfers ==> b.transfers[id] == t
  {
  }

  lemma {:induction false} DisputeAccounts(w: World, p: Payment)
    requires Inv(w) && DisputeAgrees(w, p)
    ensures HoldPending(w.books, PsmDisputeHold(p.id)) ==> Ready(w.books, Collections) && Ready(w.books, DisputeHold)
  {
    PlainAccounts(w);
    assert K.ClosedAt(w.books, PsmDisputeHold(p.id));
    DisputeHoldRecord(w, p);
  }

  /** Resolving an open dispute: a won one gives the money and the status back, a lost one debits collections for good. */
  lemma {:induction false} ResolveDisputeOutcome(w: World, id: PaymentId, outcome: Outcome, env: Env)
    requires Inv(w) && w.life == Forever && id in w.payments && id in w.disputes && w.disputes[id].status == Open
    ensures var (v, ok) := ResolveDispute(w, id, Some(outcome), env);
            var p, d := w.payments[id], w.disputes[id];
            if !Consumable(w.books, id, outcome) then v == w && !ok
            else
              && v == w.(books := v.books, disputes := v.disputes, payments := v.payments)
              && ok == (!env.saveFault && !env.finalFault)
              && v.disputes == (if env.saveFault then w.disputes else w.disputes[id := d.(status := Resolved(outcome))])
              && v.payments == (if !ok then w.payments
                                else w.payments[id := p.(status := match outcome case Won => d.prior case Lost => ChargedBack,
                                                         updatedAt := env.now)])
              && !HoldPending(v.books, PsmDisputeHold(id))
              && (outcome == Won ==> PsmDisputeDebit(id) !in v.books.transfers)
              && (outcome == Lost ==>
                    && PsmDisputeDebit(id) in v.books.transfers
                    && v.books.transfers[PsmDisputeDebit(id)]
                         == L.Transfer(Collections, DisputeHold, 200, 6, p.amount, false))
  {
    hide Inv, Agrees, DisputeAgrees, L.Void, L.Post, CloseDispute;
    var p, d := w.payments[id], w.disputes[id];
    RowAgrees(w, id);
    DisputeNamesHold(w, p);
    DisputeConsumed(w, p, outcome);
    RefusedResolves(w.books, id, p.amount);
    var (b, r) := if outcome == Won then L.Void(w.books, PsmDisputeHold(id))
                  else L.Post(w.books, PsmDisputeHold(id), PsmDisputeDebit(id), p.amount);
    assert Book(w, b) == w.(books := b);
    DisputeClosed(Book(w, b), w, p, d, outcome, env);
  }

  lemma {:induction false} DisputeNamesHold(w: World, p: Payment)
    requires DisputeAgrees(w, p) && p.id in w.disputes
    ensures w.disputes[p.id].hold == PsmDisputeHold(p.id) && w.disputes[p.id].amount == p.amount
  {
  }

  /** A refused call leaves the books. */
  lemma {:induction false} RefusedResolves(b: L.State, id: PaymentId, amount: nat)
    ensures L.Void(b, PsmDisputeHold(id)).1.Err? ==> L.Void(b, PsmDisputeHold(id)).0 == b
    ensures L.Post(b, PsmDisputeHold(id), PsmDisputeDebit(id), amount).1.Err? ==>
              L.Post(b, PsmDisputeHold(id), PsmDisputeDebit(id), amount).0 == b
  {
  }

  /** The two writes that close a dispute. */
  lemma {:induction false} DisputeClosed(u: World, w: World, p: Payment, d: Dispute, outcome: Outcome, env: Env)
    requires w.life == Forever && u == w.(books := u.books)
    ensures var (v, ok) := CloseDispute(u, p, d, outcome, env);
            && ok == (!env.saveFault && !env.finalFault)
            && v == u.(disputes := if env.saveFault then u.disputes else u.disputes[p.id := d.(status := Resolved(outcome))],
                       payments := if !ok then u.payments
                                   else u.payments[p.id := p.(status := match outcome case Won => d.prior case Lost => ChargedBack,
                                                              updatedAt := env.now)])
  {
  }

  /** What needs no resolving: an unknown outcome, payment or dispute is refused; a resolved dispute is answered again. */
  lemma {:induction false} ResolvedAlready(w: World, id: PaymentId, outcome: Option<Outcome>, env: Env)
    requires outcome.None? || id !in w.payments || id !in w.disputes || w.disputes[id].status != Open
    ensures var (v, ok) := ResolveDispute(w, id, outcome, env);
            v == w && (ok <==> outcome.Some? && id in w.payments && id in w.disputes && w.disputes[id].status == Resolved(outcome.value))
  {
  }

  // ---------------------------------------------------------------- webhooks

  /** The payment a webhook is about: the one it names, else one with its reference at its provider. */
  predicate About(w: World, hook: Webhook, id: PaymentId)
  {
    && id in w.payments
    && (id == hook.paymentId
        || (hook.paymentId !in w.payments && w.payments[id].ref == hook.reference && w.payments[id].provider == hook.provider))
  }

  /** The webhook's amount and the provider's own answer agree with the stored payment. */
  predicate Vouched(hook: Webhook, stored: nat, check: VerifyAnswer)
  {
    match check
    case NoAnswer => false
    case Says(status, amount, _, currencyOk) =>
      hook.currencyOk && currencyOk && hook.amount in {0, stored} && amount in {0, stored} && status in {AtAuthorised, AtCaptured}
  }

  predicate Fresh(w: World, hook: Webhook)
  {
    EventId(hook.provider, hook.reference, hook.event) !in w.events
  }

  /** The world with the event stored as processed, unless that write failed. */
  function Noted(w: World, hook: Webhook, env: Env): World
  {
    w.(events := if env.eventFault then w.events else w.events + {EventId(hook.provider, hook.reference, hook.event)})
  }

  /** A webhook about no stored payment, of an unknown kind, or processed before changes nothing. */
  lemma {:induction false} HookIgnored(w: World, hook: Webhook, id: PaymentId, env: Env)
    requires !About(w, hook, id) || hook.event == UnknownEvent || !Fresh(w, hook)
    ensures HandleWebhook(w, hook, id, env) == w
  {
    hide Capture, Void, OpenDispute, ResolveDispute, ValueVerified, Save;
  }

  /**
   A charge webhook. On a payment already collected it is only noted. Otherwise it does nothing at all unless its amount,
   its currency and the provider's own answer agree with the stored payment; then it captures, and is noted exactly when
   the payment ends captured.
   */
  lemma {:induction false} ChargeHookOutcome(w: World, hook: Webhook, id: PaymentId, env: Env)
    requires hook.event == ChargeSuccessful && About(w, hook, id) && Fresh(w, hook)
    ensures var p, v, u := w.payments[id], HandleWebhook(w, hook, id, env), Capture(w, id, env);
            if Collected(p.status) then w.life == Forever ==> v == Noted(w, hook, env)
            else if !Vouched(hook, p.amount, env.valueCheck) then v == w
            else if id in u.payments && u.payments[id].status == Captured then u.life == Forever ==> v == Noted(u, hook, env)
            else v == u
  {
    hide Capture;
  }

  /** An underpaid, misdirected or unconfirmed charge webhook changes nothing. */
  lemma {:induction false} ForgedHookRejected(w: World, hook: Webhook, id: PaymentId, env: Env)
    requires hook.event == ChargeSuccessful && About(w, hook, id) && !Collected(w.payments[id].status)
    requires || (hook.amount != 0 && hook.amount != w.payments[id].amount) || !hook.currencyOk
             || env.valueCheck.NoAnswer? || env.valueCheck.status == AtFailed || !env.valueCheck.currencyOk
             || (env.valueCheck.amount != 0 && env.valueCheck.amount != w.payments[id].amount)
    ensures HandleWebhook(w, hook, id, env) == w
  {
    hide Capture;
    if Fresh(w, hook) { ChargeHookOutcome(w, hook, id, env); } else { HookIgnored(w, hook, id, env); }
  }

  /** Through a webhook too, no authorised payment is charged unless the provider took the money. */
  lemma {:induction false} HookChargesOnlyIfTaken(w: World, hook: Webhook, id: PaymentId, env: Env)
    requires hook.event == ChargeSuccessful && About(w, hook, id) && w.life == Forever
    requires w.payments[id].id == id && w.payments[id].status == Authorised
    ensures var v := HandleWebhook(w, hook, id, env);
            && id in v.payments
            && (PastCapture(v.payments[id].status) || v.certs != w.certs || v.events != w.events ==>
                  && Vouched(hook, w.payments[id].amount, env.valueCheck)
                  && SameTerms(w.payments[id], env.eval) && TakenAtProvider(env))
  {
    hide Capture, Vouched, HandleWebhook, SameTerms, TakenAtProvider, Noted;
    if Fresh(w, hook) {
      ChargeHookOutcome(w, hook, id, env);
      ChargedOnlyIfTaken(w, id, env);
      CaptureNotesNothing(w, id, env);
      NotedOnly(Capture(w, id, env), hook, env);
    } else {
      HookIgnored(w, hook, id, env);
    }
  }

  lemma {:induction false} NotedOnly(w: World, hook: Webhook, env: Env)
    ensures Noted(w, hook, env) == w.(events := Noted(w, hook, env).events)
  {
  }

  /** A capture stores no processed event, and keeps a process alive that does not die. */
  lemma {:induction false} CaptureNotesNothing(w: World, id: PaymentId, env: Env)
    requires w.life == Forever
    ensures var v := Capture(w, id, env);
            v.events == w.events && v.life == Forever && v.disputes == w.disputes
  {
    hide Finish, CompensatedBooks, L.Void;
    if id in w.payments && TakenAtProvider(env) {
      var q := AwaitingPostOf(w.payments[id], SettledAtProvider(env), env.now);
      FinishNotesNothing(Save(w, q, false), q, env);
    }
  }

  lemma {:induction false} FinishNotesNothing(w: World, p: Payment, env: Env)
    requires w.life == Forever
    ensures var v := Finish(w, p, env);
            v.events == w.events && v.life == Forever && v.disputes == w.disputes
  {
    hide L.Post, PostFeeLeg, CompensatedBooks;
    var (books, r) := L.Post(w.books, p.hold, p.post, p.amount);
    FeeOnlyBooks(Book(w, books), p);
    FeeForever(Book(w, books), p);
  }

  /** A charge webhook whose capture the provider declines fails the payment, and the event is not noted. */
  lemma {:induction false} HookDeclined(w: World, hook: Webhook, id: PaymentId, env: Env)
    requires hook.event == ChargeSuccessful && About(w, hook, id) && Fresh(w, hook)
    requires Inv(w) && Capturing(w, id) && Vouched(hook, w.payments[id].amount, env.valueCheck)
    requires SameTerms(w.payments[id], env.eval) && DeclinedAtProvider(env) && !env.finalFault
    ensures var v := HandleWebhook(w, hook, id, env);
            && v.payments == w.payments[id := w.payments[id].(status := Failed, updatedAt := env.now)]
            && !HoldPending(v.books, PsmIntent(id)) && PsmPost(id) !in v.books.transfers
            && v.certs == w.certs && v.events == w.events
  {
    hide Inv, Capture, HandleWebhook, Vouched, SameTerms, DeclinedAtProvider;
    ChargeHookOutcome(w, hook, id, env);
    CaptureDeclined(w, id, env);
  }

  /** A failed or voided charge does what Void does, and is noted exactly when that succeeds. */
  lemma {:induction false} VoidHookOutcome(w: World, hook: Webhook, id: PaymentId, env: Env)
    requires hook.event in {ChargeFailed, AuthorisationVoided} && About(w, hook, id) && Fresh(w, hook) && Inv(w) && w.life == Forever
    ensures var v, (u, ok) := HandleWebhook(w, hook, id, env), Void(w, id, env);
            v == if ok then Noted(u, hook, env) else u
  {
    hide Void, Inv;
    VoidOutcome(w, id, env);
  }

  /** A late authorisation moves a payment that waits for one, and is otherwise only noted. */
  lemma {:induction false} AuthorisedHookOutcome(w: World, hook: Webhook, id: PaymentId, env: Env)
    requires hook.event == AuthorisationSuccessful && About(w, hook, id) && Fresh(w, hook) && w.life == Forever
    requires w.payments[id].id == id
    ensures var p, v := w.payments[id], HandleWebhook(w, hook, id, env);
            if p.status == Intent || p.status == PendingAuthorisation then
              v == if env.saveFault then w
                   else Noted(w.(payments := w.payments[id := p.(status := Authorised, updatedAt := env.now)]), hook, env)
            else v == Noted(w, hook, env)
  {
  }

  /** Dispute webhooks open or resolve the dispute and are noted exactly when that succeeds. */
  lemma {:induction false} DisputeHookOutcome(w: World, hook: Webhook, id: PaymentId, env: Env)
    requires hook.event in {DisputeCreate, DisputeResolve} && About(w, hook, id) && Fresh(w, hook)
    ensures var v := HandleWebhook(w, hook, id, env);
            var (u, ok) := if hook.event == DisputeCreate then OpenDispute(w, id, env) else ResolveDispute(w, id, hook.outcome, env);
            u.life == Forever ==> v == if ok then Noted(u, hook, env) else u
  {
    hide OpenDispute, ResolveDispute;
  }

  // ---------------------------------------------------------------- swept rows

  /** A captured row whose post is on the ledger is settled; one whose post is not is left. */
  lemma {:induction false} SettleOutcome(w: World, p: Payment, env: Env)
    requires Inv(w) && Stored(w, p) && p.status == Captured && w.life == Forever
    ensures SweepOne(w, p, env)
         == if env.saveFault then w else w.(payments := w.payments[p.id := p.(status := Settled, updatedAt := env.now)])
  {
    RowAgrees(w, p.id);
  }

  /** An intent is expired once it is half an hour old, and its hold is released with it. */
  lemma {:induction false} ExpireOutcome(w: World, p: Payment, env: Env)
    requires Inv(w) && Stored(w, p) && p.status in {Intent, PendingAuthorisation} && w.life == Forever
    ensures var v := SweepOne(w, p, env);
            if env.now - p.updatedAt < 1800 then v == w
            else
              && v == w.(books := v.books, payments := v.payments) && !HoldPending(v.books, PsmIntent(p.id))
              && v.payments == (if env.saveFault then w.payments
                                else w.payments[p.id := p.(status := Expired, updatedAt := env.now)])
  {
    hide Inv, Agrees, DisputeAgrees, L.Void;
    RowAgrees(w, p.id);
    HoldNamed(w, p);
    ReleaseKeeps(w, p);
    ReleaseOnlyBooks(w, p.hold);
  }

  lemma {:induction false} ReleaseOnlyBooks(w: World, hold: TransferId)
    ensures var v := Release(w, hold);
            v == w.(books := v.books, life := v.life) && (w.life == Forever ==> v.life == Forever)
  {
    hide L.Void;
  }

  /** A failed or compensated row whose hold is still pending has it released. */
  lemma {:induction false} FailedHoldOutcome(w: World, p: Payment, env: Env)
    requires Stored(w, p) && p.status in {Failed, Compensated} && w.life == Forever && !p.hold.Random?
    ensures var v := SweepOne(w, p, env);
            && !HoldPending(v.books, p.hold) && v.certs == w.certs && v.disputes == w.disputes
            && v.payments == (if HoldPending(w.books, p.hold) && !env.saveFault then w.payments[p.id := p.(updatedAt := env.now)] else w.payments)
            && (!HoldPending(w.books, p.hold) ==> v.books == w.books)
            && (p.status == Failed ==> v.comps == w.comps)
            && |v.comps| == |w.comps|
            && (p.status == Compensated ==> forall i :: 0 <= i < |w.comps| ==> Retried(w.comps[i], v.comps[i], p, env))
  {
    hide L.Void, RetryRefunds;
    if HoldPending(w.books, p.hold) { VoidsHold(w.books, p.hold); }
    RetriesEach(w.comps, p, env);
  }

  /** A failed refund of the payment is asked for again, and is marked retried when the provider refunds or voids. */
  predicate Retried(before: Compensation, after: Compensation, p: Payment, env: Env)
  {
    after == if before.pay == p.id && before.refund == RefundFailed && p.ref != "" && (env.refundOk || env.voidOk)
             then Compensation(before.pay, before.reversed, RefundRetried) else before
  }

  lemma {:induction false} RetriesEach(comps: seq<Compensation>, p: Payment, env: Env)
    ensures var r := RetryRefunds(comps, p, env);
            |r| == |comps| && forall i :: 0 <= i < |comps| ==> Retried(comps[i], r[i], p, env)
  {
    if comps != [] { RetriesEach(comps[..|comps| - 1], p, env); }
  }

  /** A capture in flight is left while the provider does not answer, and failed when it says the money was not taken. */
  lemma {:induction false} InFlightDeclined(w: World, p: Payment, env: Env)
    requires Inv(w) && Stored(w, p) && p.status == CaptureInFlight && w.life == Forever
    requires env.verify.NoAnswer? || env.verify.status != AtCaptured
    ensures var v := SweepOne(w, p, env);
            if env.verify.NoAnswer? then v == w
            else
              && v == w.(books := v.books, payments := v.payments)
              && v.payments == (if env.finalFault then w.payments else w.payments[p.id := p.(status := Failed, updatedAt := env.now)])
              && !HoldPending(v.books, PsmIntent(p.id)) && PsmPost(p.id) !in v.books.transfers
  {
    hide Inv, Agrees, DisputeAgrees, Release;
    RowAgrees(w, p.id);
    FailReleases(w, p);
  }

  /** When the provider says it took the money, the capture in flight is finished: captured, or compensated. */
  lemma {:induction false} InFlightTaken(w: World, p: Payment, env: Env)
    requires Inv(w) && Stored(w, p) && p.status == CaptureInFlight && w.life == Forever
    requires env.verify.Says? && env.verify.status == AtCaptured
    requires !env.finalFault && !env.compFault && !env.saveFault
    ensures var v, spoiled := SweepOne(w, p, env), env.certFault || !HoldPending(w.books, PsmIntent(p.id));
            && Inv(v) && p.id in v.payments && FeeKept(v.payments[p.id].fee, p.amount, env.verify.settled)
            && v.payments == w.payments[p.id := p.(status := if spoiled then Compensated else Captured, post := PsmPost(p.id),
                                                   fee := v.payments[p.id].fee, updatedAt := env.now)]
            && (if spoiled then v.certs == w.certs && RecordsOne(w.comps, v.comps, p, HoldPending(w.books, PsmIntent(p.id)), env)
                else v.certs == w.certs + {Cert(env.year, p.id)} && v.comps == w.comps)
  {
    hide Inv, Agrees, DisputeAgrees, Finish, Compensate, FeeKept, FinishAnswers;
    var settled := env.verify.settled;
    var q := AwaitingPostOf(p, settled, env.now);
    RowAgrees(w, p.id);
    FeeIsKept(p.amount, settled);
    AwaitKeeps(w, p, q);
    AwaitAgrees(w, p, settled, env.now);
    Uncertified(w, q);
    FinishEither(Save(w, q, false), q, env);
  }

  lemma {:induction false} FinishEither(w: World, p: Payment, env: Env)
    requires Inv(w) && Awaiting(w, p) && w.life == Forever && !env.finalFault && !env.compFault
    ensures var v, spoiled := Finish(w, p, env), Uncertifiable(w, p.id, env) || !Lands(w, p.id);
            && Inv(v)
            && v.payments == w.payments[p.id := p.(status := if spoiled then Compensated else Captured, updatedAt := env.now)]
            && (if spoiled then v.certs == w.certs && RecordsOne(w.comps, v.comps, p, Lands(w, p.id), env)
                else v.certs == w.certs + {Cert(env.year, p.id)} && v.comps == w.comps)
  {
    hide Inv, Finish, FinishAnswers, Uncertifiable, Lands, RecordsOne;
    if Uncertifiable(w, p.id, env) || !Lands(w, p.id) { FinishCompensates(w, p, env); } else { FinishSettles(w, p, env); }
  }

  /**
   A capture found at its point of no return is finished, its post landed or not: captured with its certificate when
   the post lands and the certificate is there, compensated otherwise.
   */
  lemma {:induction false} AwaitingOutcome(w: World, p: Payment, env: Env)
    requires Inv(w) && Stored(w, p) && p.status == AwaitingPost && w.life == Forever && !env.finalFault && !env.compFault
    ensures var v, spoiled := SweepOne(w, p, env), Uncertifiable(w, p.id, env) || !Lands(w, p.id);
            && Inv(v)
            && v.payments == w.payments[p.id := p.(status := if spoiled then Compensated else Captured, updatedAt := env.now)]
            && (if spoiled then v.certs == w.certs && RecordsOne(w.comps, v.comps, p, Lands(w, p.id), env)
                else v.certs == w.certs + {Cert(env.year, p.id)} && v.comps == w.comps)
  {
    hide Inv, Finish;
    AwaitingNamesPost(w, p);
    FinishEither(w, p, env);
  }
}
