/**
 What each payment operation does, said in terms of its inputs: the provider's answer, the
 amounts, the stored status and the accounts. These are the cases of the documentation of
 services/presumptive/payments.go, stated apart from the functions that compute them.
 */
module PaymentOutcomes {
  import opened Prelude
  import opened Ids
  import opened Payments
  import opened PaymentLaws
  import opened PaymentRuns
  import opened PaymentTheorems
  import L = Ledger
  import K = LedgerLaws
  import Q = PaymentRecovery
  import Hlc

  // ---------------------------------------------------------------- capture

  /** The provider took the money: it said so, or said so when asked after a transport error. */
  predicate TakenAtProvider(env: Env)
  {
    || (env.capture.Replied? && env.capture.captured)
    || (env.capture.TransportError? && env.verify.Says? && env.verify.status == AtCaptured)
  }

  /** The provider did not take the money: it declined, or said so when asked after a transport error. */
  predicate DeclinedAtProvider(env: Env)
  {
    || (env.capture.Replied? && !env.capture.captured)
    || (env.capture.TransportError? && env.verify.Says? && env.verify.status != AtCaptured)
  }

  /** What the provider settles of a capture it took. */
  function SettledAtProvider(env: Env): nat
    requires TakenAtProvider(env)
  {
    if env.capture.Replied? then env.capture.settled else env.verify.settled
  }

  /** The levy of the governing rule pack for an instalment class, with the administration fee. */
  function Assessed(e: Evaluation, monthly: bool): nat
  {
    match monthly
    case true => e.monthlyLevy + e.adminFee
    case false => e.annual + e.adminFee
  }

  /** The pack pinned at intent still governs, and still assesses the stored amount. */
  predicate SameTerms(p: Payment, e: Evaluation)
  {
    e.pack == p.pack && Assessed(e, p.monthly) == p.amount
  }

  predicate Capturing(w: World, id: PaymentId)
  {
    w.life == Forever && id in w.payments && w.payments[id].id == id && w.payments[id].status == Authorised
  }

  /** A capture the provider declines ends failed: the hold is released, nothing is posted, no certificate is issued. */
  lemma {:induction false} CaptureDeclined(w: World, id: PaymentId, env: Env)
    requires Inv(w) && Capturing(w, id) && SameTerms(w.payments[id], env.eval) && DeclinedAtProvider(env)
    ensures var p, v := w.payments[id], Capture(w, id, env);
            && v == w.(payments := v.payments, books := v.books)
            && v.payments == (if env.finalFault then w.payments else w.payments[id := p.(status := Failed, updatedAt := env.now)])
            && !HoldPending(v.books, PsmIntent(id)) && PsmPost(id) !in v.books.transfers
            && (forall a :: L.BalanceOf(v.books, a).debitsPosted == L.BalanceOf(w.books, a).debitsPosted
                            && L.BalanceOf(v.books, a).creditsPosted == L.BalanceOf(w.books, a).creditsPosted)
            && !CaptureAnswers(w, id, env)
  {
    hide Inv, Agrees, DisputeAgrees, CaptureTail, Park, FinishAnswers;
    RowAgrees(w, id);
    FailReleases(w, w.payments[id]);
  }

  lemma {:induction false} FailReleases(w: World, p: Payment)
    requires Inv(w) && Stored(w, p) && p.status in {Authorised, CaptureInFlight} && w.life == Forever
    ensures p.hold == PsmIntent(p.id)
    ensures var v := Release(w, p.hold);
            && v == w.(books := v.books) && !HoldPending(v.books, PsmIntent(p.id)) && PsmPost(p.id) !in v.books.transfers
            && (forall a :: L.BalanceOf(v.books, a).debitsPosted == L.BalanceOf(w.books, a).debitsPosted
                            && L.BalanceOf(v.books, a).creditsPosted == L.BalanceOf(w.books, a).creditsPosted)
  {
    RowAgrees(w, p.id);
    HoldNamed(w, p);
    assert PsmPost(p.id) !in w.books.transfers;
    hide Inv, Agrees, DisputeAgrees;
    if HoldPending(w.books, p.hold) { VoidMovesNothing(w.books, p.hold, PsmPost(p.id)); }
  }

  /** Releasing a hold moves no posted money and records only the release. */
  lemma {:induction false} VoidMovesNothing(b: L.State, hold: TransferId, other: TransferId)
    requires HoldPending(b, hold) && !hold.Random?
    ensures var c := L.Void(b, hold).0;
            && !HoldPending(c, hold) && (!other.Random? && other !in b.transfers ==> other !in c.transfers)
            && (forall a :: L.BalanceOf(c, a).debitsPosted == L.BalanceOf(b, a).debitsPosted
                            && L.BalanceOf(c, a).creditsPosted == L.BalanceOf(b, a).creditsPosted)
  {
  }

  /** A capture is parked, and nothing else happens, when the pack changed or the provider's state is unknown. */
  lemma {:induction false} CaptureParked(w: World, id: PaymentId, env: Env)
    requires Capturing(w, id)
    requires !SameTerms(w.payments[id], env.eval) || (env.capture.TransportError? && env.verify.NoAnswer?)
    ensures Capture(w, id, env)
         == w.(payments := if env.saveFault then w.payments
                           else w.payments[id := w.payments[id].(status := CaptureInFlight, updatedAt := env.now)])
    ensures !CaptureAnswers(w, id, env)
  {
    hide CaptureTail, FailConfirmed, FinishAnswers;
  }

  /** Whatever fails, and wherever the process dies: no authorised payment is charged unless the provider took the money. */
  lemma {:induction false} ChargedOnlyIfTaken(w: World, id: PaymentId, env: Env)
    requires id in w.payments && w.payments[id].id == id && w.payments[id].status == Authorised
    ensures var v := Capture(w, id, env);
            && id in v.payments
            && (PastCapture(v.payments[id].status) ==> SameTerms(w.payments[id], env.eval) && TakenAtProvider(env))
            && (v.certs != w.certs || v.comps != w.comps || CaptureAnswers(w, id, env) ==>
                  SameTerms(w.payments[id], env.eval) && TakenAtProvider(env))
  {
    hide FinishAnswers, CaptureTail, L.Void, Lawful, SameTerms;
    CaptureLawful(w, id, env);
    if !(SameTerms(w.payments[id], env.eval) && TakenAtProvider(env)) { NotTaken(w, id, env); }
  }

  /** Without the provider's money a capture only parks or fails the payment. */
  lemma {:induction false} NotTaken(w: World, id: PaymentId, env: Env)
    requires id in w.payments && w.payments[id].id == id && w.payments[id].status == Authorised
    requires !SameTerms(w.payments[id], env.eval) || !TakenAtProvider(env)
    ensures var p, v := w.payments[id], Capture(w, id, env);
            && id in v.payments && v.payments[id].status in {Authorised, CaptureInFlight, Failed}
            && v.certs == w.certs && v.comps == w.comps && !CaptureAnswers(w, id, env)
  {
    TurnedAway(w, id, env);
    SavedOrNot(w, w.payments[id].(status := CaptureInFlight, updatedAt := env.now), env.saveFault);
    ReleaseWrites(w, w.payments[id].hold);
    SavedOrNot(Release(w, w.payments[id].hold), w.payments[id].(status := Failed, updatedAt := env.now), env.finalFault);
    hide Capture, CaptureAnswers, SameTerms, TakenAtProvider, Save;
  }

  /** A write of a payment leaves the row as it was or as written, and no certificate or record. */
  lemma {:induction false} SavedOrNot(w: World, p: Payment, fault: bool)
    requires p.id in w.payments
    ensures var v := Save(w, p, fault);
            p.id in v.payments && v.payments[p.id] in {w.payments[p.id], p} && v.certs == w.certs && v.comps == w.comps
  {
  }

  lemma {:induction false} TurnedAway(w: World, id: PaymentId, env: Env)
    requires id in w.payments && w.payments[id].status == Authorised
    requires !SameTerms(w.payments[id], env.eval) || !TakenAtProvider(env)
    ensures Capture(w, id, env) == Park(w, w.payments[id], env) || Capture(w, id, env) == FailConfirmed(w, w.payments[id], env)
    ensures !CaptureAnswers(w, id, env)
  {
    hide FinishAnswers, CaptureTail, Park, FailConfirmed, AwaitingPostOf, Save;
  }

  /** Why a charged capture is compensated: the state or the certificate could not be stored, or the hold was gone. */
  predicate Spoiled(w: World, id: PaymentId, env: Env)
  {
    env.saveFault || env.certFault || !HoldPending(w.books, PsmIntent(id))
  }

  /** The provider's fee: what it keeps of the amount, in 64 bits. */
  predicate FeeKept(fee: nat, amount: nat, settled: nat)
  {
    && (settled <= amount < UINT64 ==> fee == amount - settled)
    && (amount < settled < UINT64 ==> fee == UINT64 + amount - settled)
  }

  /** The record compensateCapture stores about the provider's side and about the reversal. */
  predicate Recorded(c: Compensation, p: Payment, landed: bool, env: Env)
  {
    && c.pay == p.id && (c.reversed <==> landed)
    && (c.refund == Refunded <==> p.ref != "" && (env.refundOk || env.voidOk))
    && (c.refund == RefundFailed <==> p.ref != "" && !env.refundOk && !env.voidOk)
    && (c.refund == RefundSkipped <==> p.ref == "")
  }

  /** The records grew by one that is `Recorded`. */
  predicate RecordsOne(before: seq<Compensation>, after: seq<Compensation>, p: Payment, landed: bool, env: Env)
  {
    |after| == |before| + 1 && after[..|before|] == before && Recorded(after[|before|], p, landed, env)
  }

  /** A compensation records what became of the refund, and whether there was a post to reverse. */
  lemma {:induction false} CompensationRecords(w: World, p: Payment, env: Env)
    requires Alive(w)
    ensures var v := Compensate(w, p, env);
            && RecordsOne(w.comps, v.comps, p, p.post != NoTransfer && p.post in w.books.transfers && !w.books.transfers[p.post].pending, env)
            && v.payments == (if env.compFault then w.payments
                              else w.payments[p.id := p.(status := Compensated, updatedAt := env.now)])
            && v.certs == w.certs && v.disputes == w.disputes && v.events == w.events
  {
  }

  /** The post of the payment lands, now or before. */
  predicate Lands(w: World, id: PaymentId)
  {
    HoldPending(w.books, PsmIntent(id)) || PsmPost(id) in w.books.transfers
  }

  /** The certificate of the payment cannot be stored and is not there yet. */
  predicate Uncertifiable(w: World, id: PaymentId, env: Env)
  {
    env.certFault && Cert(env.year, id) !in w.certs
  }

  /** The post of an awaiting payment is accepted exactly when it lands, now or before. */
  lemma {:induction false} PostAccepted(w: World, p: Payment)
    requires Inv(w) && Awaiting(w, p) && w.life == Forever
    ensures p.hold == PsmIntent(p.id)
    ensures var (books, r) := L.Post(w.books, p.hold, p.post, p.amount);
            (r.Ok? <==> Lands(w, p.id)) && (r.Err? ==> books == w.books)
  {
    hide Agrees, DisputeAgrees, L.Post;
    RowAgrees(w, p.id);
    HoldNamed(w, p);
    if HoldPending(w.books, p.hold) { Q.PostLandsNow(w, p); } else { PostAgain(w, p); }
  }

  /** Post, fee leg and certificate of an awaiting payment whose post lands, with stores that work. */
  lemma {:induction false} FinishSettles(w: World, p: Payment, env: Env)
    requires Inv(w) && Awaiting(w, p) && w.life == Forever
    requires Lands(w, p.id) && !Uncertifiable(w, p.id, env) && !env.finalFault
    ensures var v := Finish(w, p, env);
            && v.payments == w.payments[p.id := p.(status := Captured, updatedAt := env.now)]
            && v.certs == w.certs + {Cert(env.year, p.id)} && v.comps == w.comps && v.disputes == w.disputes && v.events == w.events
            && Inv(v) && FinishAnswers(w, p, env)
  {
    hide Inv, Agrees, DisputeAgrees, L.Post, PostFeeLeg, Compensate, Lands;
    var (books, r) := L.Post(w.books, p.hold, p.post, p.amount);
    var w1 := Book(w, books);
    PostAccepted(w, p);
    PostKeeps(w, p);
    FeeKeeps(w1, p);
    FeeForever(w1, p);
    FeeOnlyBooks(w1, p);
    FinishKeeps(w, p, env);
  }

  lemma {:induction false} FeeOnlyBooks(w: World, p: Payment)
    ensures var v := PostFeeLeg(w, p).0;
            v == w.(books := v.books, life := v.life)
  {
    hide L.Direct, Opened;
    EnsureOnly(w, Collections);
    EnsureOnly(EnsureAccount(w, Collections), FeeIncome);
    hide EnsureAccount;
  }

  lemma {:induction false} EnsureOnly(w: World, a: AccountId)
    ensures var v := EnsureAccount(w, a);
            v == w.(books := v.books, life := v.life)
  {
    hide Opened;
  }

  /** The same payment when the certificate cannot be stored, or when its hold is gone without a post. */
  lemma {:induction false} FinishCompensates(w: World, p: Payment, env: Env)
    requires Inv(w) && Awaiting(w, p) && w.life == Forever && !env.compFault
    requires Uncertifiable(w, p.id, env) || !Lands(w, p.id)
    ensures var v := Finish(w, p, env);
            && v.payments == w.payments[p.id := p.(status := Compensated, updatedAt := env.now)]
            && v.certs == w.certs && RecordsOne(w.comps, v.comps, p, Lands(w, p.id), env) && v.events == w.events
            && Inv(v) && !FinishAnswers(w, p, env)
  {
    hide Inv, Agrees, DisputeAgrees, L.Post, PostFeeLeg, Compensate, RecordsOne;
    AwaitingNamesPost(w, p);
    var (books, r) := L.Post(w.books, p.hold, p.post, p.amount);
    var w1 := Book(w, books);
    PostAccepted(w, p);
    PostKeeps(w, p);
    FinishKeeps(w, p, env);
    if Lands(w, p.id) {
      FeeKeeps(w1, p);
      FeeForever(w1, p);
      FeeOnlyBooks(w1, p);
      LandedPost(PostFeeLeg(w1, p).0, p);
      CompensationRecords(PostFeeLeg(w1, p).0, p, env);
      assert Issue(PostFeeLeg(w1, p).0, p, env) == PostFeeLeg(w1, p).0;
    } else {
      CompensationRecords(w, p, env);
      assert w1 == w;
    }
  }

  lemma {:induction false} Uncertified(w: World, p: Payment)
    requires Agrees(w, p) && !Landed(w, p.id)
    ensures forall year :: Cert(year, p.id) !in w.certs
  {
  }

  lemma {:induction false} LandedPost(w: World, p: Payment)
    requires Inv(w) && Awaiting(w, p) && Landed(w, p.id)
    ensures PostLanded(w.books, p)
  {
    RowAgrees(w, p.id);
  }

  /** A capture whose fee leg the ledger refuses, its id being taken by another transfer, is compensated. */
  lemma {:induction false} RefusedFeeCompensates(w: World, p: Payment, env: Env)
    requires w.life == Forever && p.fee > 0 && Ready(w.books, Collections) && Ready(w.books, FeeIncome)
    requires PsmFee(p.id) in w.books.transfers
    requires w.books.transfers[PsmFee(p.id)] != L.Transfer(Collections, FeeIncome, 200, 5, p.fee, false)
    ensures AfterPost(w, true, p, env) == Compensate(w, p, env)
  {
    hide Compensate, Issue, Save;
  }

  /** The world after the point of no return was stored, or could not be. */
  lemma {:induction false} TakenTail(w: World, id: PaymentId, env: Env, settled: nat)
    requires Capturing(w, id) && SameTerms(w.payments[id], env.eval) && TakenAtProvider(env)
    requires settled == SettledAtProvider(env)
    ensures Capture(w, id, env) == CaptureTail(w, w.payments[id], settled, env)
    ensures CaptureAnswers(w, id, env) <==>
              !env.saveFault
              && FinishAnswers(Save(w, AwaitingPostOf(w.payments[id], settled, env.now), false),
                               AwaitingPostOf(w.payments[id], settled, env.now), env)
  {
    hide CaptureTail, FinishAnswers, AwaitingPostOf, FailConfirmed, Park;
  }

  lemma {:induction false} FeeIsKept(amount: nat, settled: nat)
    ensures FeeKept(FeeOf(amount, settled), amount, settled)
  {
  }

  /**
   A capture the provider took, in a world where records and ledger agree: the hold is posted in full from the
   payer to collections, the fee goes to fee income and the certificate is issued; or, when something on the way
   fails, the payer is made whole, the provider is asked to refund and a record says what it answered.
   */
  lemma {:induction false} CaptureTaken(w: World, id: PaymentId, env: Env)
    requires Inv(w) && Capturing(w, id) && SameTerms(w.payments[id], env.eval) && TakenAtProvider(env)
    requires !env.finalFault && !env.compFault
    ensures var p, v, settled := w.payments[id], Capture(w, id, env), SettledAtProvider(env);
            && Inv(v) && id in v.payments
            && FeeKept(v.payments[id].fee, p.amount, settled)
            && v.payments == w.payments[id := p.(status := if Spoiled(w, id, env) then Compensated else Captured,
                                                 post := PsmPost(id), fee := v.payments[id].fee, updatedAt := env.now)]
            && (if Spoiled(w, id, env)
                then v.certs == w.certs && RecordsOne(w.comps, v.comps, p, !env.saveFault && HoldPending(w.books, PsmIntent(id)), env)
                else v.certs == w.certs + {Cert(env.year, id)} && v.comps == w.comps)
            && Promised(v, v.payments[id])
            && (CaptureAnswers(w, id, env) <==> !Spoiled(w, id, env))
  {
    hide Inv, Agrees, DisputeAgrees, Finish, FinishAnswers, Compensate, Promised, FeeKept;
    var p, settled := w.payments[id], SettledAtProvider(env);
    var q := AwaitingPostOf(p, settled, env.now);
    RowAgrees(w, id);
    HoldNamed(w, p);
    TakenTail(w, id, env, settled);
    FeeIsKept(p.amount, settled);
    var u := Save(w, q, false);
    AwaitKeeps(w, p, q);
    AwaitAgrees(w, p, settled, env.now);
    Uncertified(w, q);
    if env.saveFault {
      LostAwait(w, p, q, env);
    } else if Spoiled(w, id, env) {
      FinishCompensates(u, q, env);
    } else {
      FinishSettles(u, q, env);
    }
    InvPromises(Capture(w, id, env), id);
  }

  lemma {:induction false} LostAwait(w: World, p: Payment, q: Payment, env: Env)
    requires Inv(w) && Stored(w, p) && p.status == Authorised && w.life == Forever && !env.compFault
    requires q == AwaitingPostOf(p, 0, q.updatedAt).(fee := q.fee)
    requires Agrees(w, q) && DisputeAgrees(w, q.(status := Compensated)) && !Landed(w, p.id)
    ensures var v := Compensate(w, q, env);
            && Inv(v) && v.payments == w.payments[p.id := q.(status := Compensated, updatedAt := env.now)]
            && v.certs == w.certs && RecordsOne(w.comps, v.comps, q, false, env)
  {
    CompensateKeeps(w, q, env);
    CompensationRecords(w, q, env);
  }

  // ---------------------------------------------------------------- intent, authorise, void

  /** The statuses in which a payment blocks a second one of the same levy. */
  predicate Covers(p: Payment, tin: string, period: string, monthly: bool)
  {
    && p.tin == tin && p.period == period && p.monthly == monthly
    && (|| p.status == Intent || p.status == PendingAuthorisation || p.status == Authorised || p.status == AwaitingPost
        || p.status == CaptureInFlight || p.status == Captured || p.status == Settled || p.status == Disputed)
  }

  /** What an intent needs to be accepted. */
  ghost predicate Payable(w: World, req: IntentRequest, period: string, gateOpen: bool, providerKnown: bool, env: Env)
  {
    && gateOpen && providerKnown && req.tin != "" && req.state != ""
    && (forall id :: id in w.payments ==> !Covers(w.payments[id], req.tin, period, req.monthly))
    && !env.eval.exempt && !env.eval.graduate && Assessed(env.eval, req.monthly) > 0
  }

  /** An intent that is accepted stores one payment of the assessed levy over a hold of that levy; any other changes nothing. */
  lemma {:induction false} IntentOutcome(w: World, req: IntentRequest, id: PaymentId, gateOpen: bool, providerKnown: bool, env: Env,
                                         period: string)
    requires Inv(w) && FreshId(w, id) && w.life == Forever
    requires period == (if req.period == "" then Hlc.Digits(env.year) else req.period)
    ensures var v := CreateIntent(w, req, id, gateOpen, providerKnown, env);
            var levy := Assessed(env.eval, req.monthly);
            var p := Payment(id, req.tin, period, req.monthly, req.provider, levy, env.eval.pack,
                             PendingAuthorisation, PsmIntent(id), NoTransfer, 0, "", env.now);
            if !Payable(w, req, period, gateOpen, providerKnown, env) then v == w
            else
              && v == w.(books := v.books, payments := if env.saveFault then w.payments else w.payments[id := p])
              && PsmIntent(id) in v.books.transfers
              && v.books.transfers[PsmIntent(id)]
                   == L.Transfer(Payer(req.tin), Collections, 200, 1, levy, !env.saveFault)
  {
    hide Inv, EnsureAccount, L.Hold, FreshId, Release, DuplicateLevy;
    assert DuplicateLevy(w.payments, req.tin, period, req.monthly)
      <==> exists x :: x in w.payments && Covers(w.payments[x], req.tin, period, req.monthly) by { CoversLive(w, req, period); }
    if Payable(w, req, period, gateOpen, providerKnown, env) {
      IntentPlaced(w, req, id, env);
    }
  }

  /** The hold of an accepted intent is on the ledger, and released again when the payment could not be stored. */
  lemma {:induction false} IntentPlaced(w: World, req: IntentRequest, id: PaymentId, env: Env)
    requires Inv(w) && FreshId(w, id) && w.life == Forever && req.tin != "" && req.state != ""
    requires !DuplicateLevy(w.payments, req.tin, PeriodOf(req, env), req.monthly)
    requires !env.eval.exempt && !env.eval.graduate && Assessed(env.eval, req.monthly) > 0
    ensures var v, p := CreateIntent(w, req, id, true, true, env), NewPayment(id, req, env);
            && v == w.(books := v.books, payments := if env.saveFault then w.payments else w.payments[id := p])
            && PsmIntent(id) in v.books.transfers
            && v.books.transfers[PsmIntent(id)] == HoldTransfer(p).(pending := !env.saveFault)
  {
    hide Inv, EnsureAccount, L.Hold, L.Void, HoldTransfer, DuplicateLevy;
    var p := NewPayment(id, req, env);
    var w0 := EnsureAccount(w, Payer(p.tin));
    var w1 := EnsureAccount(w0, Collections);
    EnsureKeeps(w, Payer(p.tin));
    EnsureKeeps(w0, Collections);
    Q.InvPlain(w1, Payer(p.tin));
    Q.InvPlain(w1, Collections);
    EnsureOnly(w, Payer(p.tin));
    EnsureOnly(w0, Collections);
    Q.EnsureOnlyBooks(w, Payer(p.tin));
    Q.EnsureOnlyBooks(w0, Collections);
    HoldPlaced(w1.books, p);
    if env.saveFault { VoidsHold(L.Hold(w1.books, p.hold, HoldTransfer(p)).0, p.hold); }
  }

  lemma {:induction false} HoldPlaced(b: L.State, p: Payment)
    requires Ready(b, Payer(p.tin)) && Ready(b, Collections) && p.hold == PsmIntent(p.id) && p.hold !in b.transfers && p.amount > 0
    ensures var (books, r) := L.Hold(b, p.hold, HoldTransfer(p));
            r.Ok? && p.hold in books.transfers && books.transfers[p.hold] == HoldTransfer(p) && HoldTransfer(p).pending
  {
  }

  lemma {:induction false} CoversLive(w: World, req: IntentRequest, period: string)
    ensures DuplicateLevy(w.payments, req.tin, period, req.monthly)
      <==> exists x :: x in w.payments && Covers(w.payments[x], req.tin, period, req.monthly)
  {
    if x :| x in w.payments && Covers(w.payments[x], req.tin, period, req.monthly) { assert Live(w.payments[x].status); }
    if DuplicateLevy(w.payments, req.tin, period, req.monthly) {
      var x :| x in w.payments && w.payments[x].tin == req.tin && w.payments[x].period == period
               && w.payments[x].monthly == req.monthly && Live(w.payments[x].status);
      assert Covers(w.payments[x], req.tin, period, req.monthly);
    }
  }

  /** Authorise: an approval stores the provider's reference, a decline also releases the hold, anything else changes nothing. */
  lemma {:induction false} AuthoriseOutcome(w: World, id: PaymentId, env: Env)
    requires Inv(w) && w.life == Forever
    ensures var v := Authorise(w, id, env);
            if id !in w.payments || w.payments[id].status != PendingAuthorisation || env.auth.AuthError? then
              v == w && !AuthoriseAnswers(w, id, env)
            else
              var p := w.payments[id];
              && v.payments == (if env.saveFault then w.payments
                                else w.payments[id := p.(ref := env.auth.ref, updatedAt := env.now,
                                                         status := if env.auth.AuthApproved? then Authorised else Failed)])
              && v == w.(payments := v.payments, books := v.books)
              && (env.auth.AuthApproved? ==> v.books == w.books)
              && (env.auth.AuthDeclined? ==> !HoldPending(v.books, PsmIntent(id)))
              && (AuthoriseAnswers(w, id, env) <==> !env.saveFault)
  {
    hide Inv, Agrees, DisputeAgrees, L.Void;
    if id in w.payments {
      RowAgrees(w, id);
      HoldNamed(w, w.payments[id]);
      ReleaseKeeps(w, w.payments[id]);
    }
  }

  /** Void: a payment that was not captured is voided and its hold released; a voided one is answered again; any other is refused. */
  lemma {:induction false} VoidOutcome(w: World, id: PaymentId, env: Env)
    requires Inv(w) && w.life == Forever
    ensures var (v, ok) := Void(w, id, env);
            if id in w.payments && HoldPending(w.books, PsmIntent(id))
               && (w.payments[id].status == Intent || w.payments[id].status == PendingAuthorisation || w.payments[id].status == Authorised)
            then
              && v == w.(payments := v.payments, books := v.books)
              && v.payments == (if env.saveFault then w.payments
                                else w.payments[id := w.payments[id].(status := Voided, updatedAt := env.now)])
              && !HoldPending(v.books, PsmIntent(id)) && ok == !env.saveFault
            else
              v == w && ok == (id in w.payments && w.payments[id].status == Voided)
  {
    hide Inv, Agrees, DisputeAgrees, L.Void;
    if id in w.payments {
      RowAgrees(w, id);
      HoldNamed(w, w.payments[id]);
      VoidAnswers(w.books, PsmIntent(id));
      if HoldPending(w.books, PsmIntent(id)) { VoidsHold(w.books, PsmIntent(id)); } else { VoidRefused(w.books, PsmIntent(id)); }
    }
  }

  lemma {:induction false} VoidAnswers(b: L.State, hold: TransferId)
    ensures L.Void(b, hold).1.Ok? <==> HoldPending(b, hold)
  {
  }

  // ---------------------------------------------------------------- the records of a payment

  /** Wherever records and ledger agree, every transfer of a payment is between the accounts and of the amount its name says. */
  lemma {:induction false} LegsRecorded(w: World, id: PaymentId)
    requires Inv(w) && id in w.payments
    ensures var p, m := w.payments[id], w.books.transfers;
            && PsmIntent(id) in m && m[PsmIntent(id)].(pending := true) == L.Transfer(Payer(p.tin), Collections, 200, 1, p.amount, true)
            && (PsmPost(id) in m ==> m[PsmPost(id)] == L.Transfer(Payer(p.tin), Collections, 200, 1, p.amount, false))
            && (PsmFee(id) in m ==> m[PsmFee(id)] == L.Transfer(Collections, FeeIncome, 200, 5, p.fee, false))
            && (PsmCompensation(id) in m ==> m[PsmCompensation(id)] == L.Transfer(Collections, Payer(p.tin), 200, 3, p.amount, false))
            && (PsmDisputeHold(id) in m ==>
                  m[PsmDisputeHold(id)].(pending := true) == L.Transfer(Collections, DisputeHold, 200, 6, p.amount, true))
            && (PsmDisputeDebit(id) in m ==> m[PsmDisputeDebit(id)] == L.Transfer(Collections, DisputeHold, 200, 6, p.amount, false))
  {
    RowAgrees(w, id);
  }
}
