/** Every operation of the payment saga, cut off at any durable call, keeps the invariant; hence every run does. */
module PaymentRuns {
  import opened Prelude
  import opened Ids
  import opened Payments
  import opened PaymentLaws
  import L = Ledger
  import K = LedgerLaws

  predicate Stored(w: World, p: Payment)
  {
    p.id in w.payments && w.payments[p.id] == p
  }

  // ---------------------------------------------------------------- authorise, void, capture

  lemma {:induction false} AuthoriseKeeps(w: World, id: PaymentId, env: Env)
    requires Inv(w)
    ensures Inv(Authorise(w, id, env))
  {
    hide Inv, Agrees, DisputeAgrees, Release;
    if id in w.payments && w.payments[id].status == PendingAuthorisation {
      var p := w.payments[id];
      RowAgrees(w, id);
      match env.auth
      case AuthError =>
      case AuthApproved(ref) =>
        AuthorisedAgrees(w, p, ref, env.now);
        SaveKeeps(w, p.(ref := ref, status := Authorised, updatedAt := env.now), env.saveFault);
      case AuthDeclined(ref) => FailKeeps(w, p, p.(ref := ref, status := Failed, updatedAt := env.now), env.saveFault);
    }
  }

  lemma {:induction false} AuthorisedAgrees(w: World, p: Payment, ref: string, now: int)
    requires Agrees(w, p) && DisputeAgrees(w, p) && p.status in {Intent, PendingAuthorisation}
    ensures var q := p.(ref := ref, status := Authorised, updatedAt := now);
            Agrees(w, q) && DisputeAgrees(w, q)
  {
  }

  /** Release the hold, then mark a payment that never posted with a final status. */
  lemma {:induction false} FailKeeps(w: World, p: Payment, q: Payment, fault: bool)
    requires Inv(w) && p.id in w.payments && w.payments[p.id] == p
    requires p.status in {Intent, PendingAuthorisation, Authorised, CaptureInFlight, Failed}
    requires q == p.(ref := q.ref, status := q.status, updatedAt := q.updatedAt) && q.status in {Failed, Voided, Expired}
    ensures Inv(Save(Release(w, p.hold), q, fault))
  {
    hide Inv, Agrees, DisputeAgrees;
    RowAgrees(w, p.id);
    HoldNamed(w, p);
    var v := Release(w, p.hold);
    ReleaseKeeps(w, p);
    if Alive(w) {
      Ended(v, p, q);
      SaveKeeps(v, q, fault);
    } else {
      assert Save(v, q, fault) == w;
    }
  }

  lemma {:induction false} HoldNamed(w: World, p: Payment)
    requires Agrees(w, p)
    ensures p.hold == PsmIntent(p.id) && p.hold in w.books.transfers
  {
  }

  /** A payment that never posted agrees with a final status once its hold is released. */
  lemma {:induction false} Ended(w: World, p: Payment, q: Payment)
    requires Agrees(w, p) && DisputeAgrees(w, p) && !HoldPending(w.books, p.hold)
    requires p.status in {Intent, PendingAuthorisation, Authorised, CaptureInFlight, Failed}
    requires q == p.(ref := q.ref, status := q.status, updatedAt := q.updatedAt) && q.status in {Failed, Voided, Expired}
    ensures Agrees(w, q) && DisputeAgrees(w, q)
  {
  }

  lemma {:induction false} VoidKeeps(w: World, id: PaymentId, env: Env)
    requires Inv(w)
    ensures Inv(Void(w, id, env).0)
  {
    if id in w.payments && w.payments[id].status in {Intent, PendingAuthorisation, Authorised} {
      var p := w.payments[id];
      assert At(w, id);
      if L.Void(w.books, p.hold).1.Ok? {
        FailKeeps(w, p, p.(status := Voided, updatedAt := env.now), env.saveFault);
      }
    }
  }

  lemma {:induction false} AwaitAgrees(w: World, p: Payment, settled: nat, now: int)
    requires Agrees(w, p) && DisputeAgrees(w, p) && p.status in {Authorised, CaptureInFlight}
    ensures var q := AwaitingPostOf(p, settled, now);
            Agrees(w, q) && DisputeAgrees(w, q) && DisputeAgrees(w, q.(status := Compensated)) && !Landed(w, p.id)
  {
    hide DisputeAgrees;
    AwaitDisputes(w, p, settled, now);
  }

  lemma {:induction false} AwaitDisputes(w: World, p: Payment, settled: nat, now: int)
    requires DisputeAgrees(w, p) && p.status in {Authorised, CaptureInFlight}
    ensures var q := AwaitingPostOf(p, settled, now);
            DisputeAgrees(w, q) && DisputeAgrees(w, q.(status := Compensated))
  {
    hide LegAgrees;
  }

  /** The same for any fee and clock reading. */
  lemma {:induction false} AwaitAgreesAs(w: World, p: Payment, q: Payment)
    requires Agrees(w, p) && DisputeAgrees(w, p) && p.status in {Authorised, CaptureInFlight}
    requires q == AwaitingPostOf(p, 0, q.updatedAt).(fee := q.fee)
    ensures Agrees(w, q) && DisputeAgrees(w, q)
  {
  }

  lemma {:induction false} CaptureTailKeeps(w: World, p: Payment, settled: nat, env: Env)
    requires Inv(w) && p.id in w.payments && w.payments[p.id] == p && p.status == Authorised
    requires !(!env.saveFault && Loses(w, AwaitingPostOf(p, settled, env.now), env, 1))
    ensures Inv(CaptureTail(w, p, settled, env))
  {
    hide Inv, Compensate, Finish, AgreesOn, DisputeAgreesOn, L.Post;
    var q := AwaitingPostOf(p, settled, env.now);
    var v := Save(w, q, env.saveFault);
    RowAgrees(w, p.id);
    AwaitAgrees(w, p, settled, env.now);
    if !Alive(w) {
      DeadTail(w, q, env);
    } else if env.saveFault {
      SpendKeeps(w, v.life);
      AgreesFrame(w, v, q);
      AgreesFrame(w, v, q.(status := Compensated));
      if env.compFault { CompensateUnsavedKeeps(v, q, env); } else { CompensateKeeps(v, q, env); }
    } else {
      AwaitKeeps(w, p, q);
      FinishKeeps(v, q, env);
    }
  }

  lemma {:induction false} DeadTail(w: World, q: Payment, env: Env)
    requires !Alive(w)
    ensures Compensate(w, q, env) == w && Finish(w, q, env) == w
  {
    DeadAfterPost(w, L.Post(w.books, q.hold, q.post, q.amount).1.Ok?, q, env);
  }

  /** What the invariant says of a stored row. */
  lemma {:induction false} RowAgrees(w: World, id: PaymentId)
    requires Inv(w) && id in w.payments
    ensures w.payments[id].id == id && Agrees(w, w.payments[id]) && DisputeAgrees(w, w.payments[id])
  {
    assert At(w, id);
  }

  /** The capture charges the payment and then loses its compensation. */
  predicate CaptureLoses(w: World, id: PaymentId, env: Env)
  {
    && id in w.payments && w.payments[id].status == Authorised && PackCurrent(w.payments[id], env.eval)
    && ChargeSeen(env).Charged? && !env.saveFault
    && Loses(w, AwaitingPostOf(w.payments[id], ChargeSeen(env).settled, env.now), env, 1)
  }

  lemma {:induction false} CaptureKeeps(w: World, id: PaymentId, env: Env)
    requires Inv(w) && !CaptureLoses(w, id, env)
    ensures Inv(Capture(w, id, env))
  {
    hide Inv, CaptureTail, Save, Release, Agrees, DisputeAgrees;
    if id in w.payments && w.payments[id].status == Authorised {
      var p := w.payments[id];
      RowAgrees(w, id);
      if !PackCurrent(p, env.eval) {
        ParkKeeps(w, p, env);
      } else {
        match ChargeSeen(env)
        case Charged(settled) => CaptureTailKeeps(w, p, settled, env);
        case Refused => FailKeeps(w, p, p.(status := Failed, updatedAt := env.now), env.finalFault);
        case Unclear => ParkKeeps(w, p, env);
      }
    }
  }

  lemma {:induction false} ParkKeeps(w: World, p: Payment, env: Env)
    requires Inv(w) && Stored(w, p) && p.status == Authorised
    ensures Inv(Park(w, p, env))
  {
    RowAgrees(w, p.id);
    SaveKeeps(w, p.(status := CaptureInFlight, updatedAt := env.now), env.saveFault);
  }

  /** The exact condition for a capture, cut off anywhere. */
  lemma {:induction false} CaptureKeepsIff(w: World, id: PaymentId, env: Env)
    requires Inv(w)
    ensures Inv(Capture(w, id, env)) <==> !CaptureLoses(w, id, env)
  {
    hide Inv, Finish, Agrees, DisputeAgrees;
    if !CaptureLoses(w, id, env) {
      CaptureKeeps(w, id, env);
    } else {
      var p, q := w.payments[id], AwaitingPostOf(w.payments[id], ChargeSeen(env).settled, env.now);
      RowAgrees(w, id);
      AwaitAgrees(w, p, ChargeSeen(env).settled, env.now);
      AwaitKeeps(w, p, q);
      FinishKeepsIff(Save(w, q, false), q, env);
    }
  }

  /** Storing the awaiting form of a chargeable payment. */
  lemma {:induction false} AwaitKeeps(w: World, p: Payment, q: Payment)
    requires Inv(w) && Stored(w, p) && p.status in {Authorised, CaptureInFlight}
    requires q == AwaitingPostOf(p, 0, q.updatedAt).(fee := q.fee)
    ensures Inv(Save(w, q, false))
    ensures var v := Save(w, q, false);
            Alive(w) ==> Awaiting(v, q) && v.books == w.books && v.certs == w.certs
  {
    RowAgrees(w, p.id);
    AwaitAgreesAs(w, p, q);
    SaveKeeps(w, q, false);
  }

  // ---------------------------------------------------------------- intent

  /** The drawn payment id was never used. */
  predicate FreshId(w: World, id: PaymentId)
  {
    id !in w.payments && PsmIntent(id) !in w.books.transfers
  }

  /** A ledger call on the intent hold of an id without a row leaves that id otherwise untouched. */
  lemma {:induction false} UntouchedFrame(w: World, op: L.Op, id: PaymentId)
    requires Untouched(w, id) && forall t :: K.Names(op, t) ==> t == PsmIntent(id)
    ensures Untouched(w.(books := L.Step(w.books, op)), id)
  {
    K.StepFrame(w.books, op, PsmPost(id));
    K.StepFrame(w.books, op, PsmFee(id));
    K.StepFrame(w.books, op, PsmCompensation(id));
    K.StepFrame(w.books, op, PsmDisputeHold(id));
    K.StepFrame(w.books, op, PsmDisputeDebit(id));
  }

  lemma {:induction false} IntentHoldKeeps(w: World, p: Payment)
    requires Inv(w) && FreshId(w, p.id) && p.hold == PsmIntent(p.id) && p.amount > 0
    ensures var v := Book(w, L.Hold(w.books, p.hold, HoldTransfer(p)).0);
            && Inv(v) && v.payments == w.payments
            && (L.Hold(w.books, p.hold, HoldTransfer(p)).1.Ok? && Alive(w) ==>
                  p.hold in v.books.transfers && v.books.transfers[p.hold] == HoldTransfer(p))
  {
    hide OnlyFor, AgreesOn, DisputeAgreesOn, Blank, K.WellKept;
    var op := L.DoHold(p.hold, HoldTransfer(p));
    var u := w.(books := L.Step(w.books, op));
    assert At(w, p.id);
    StepOnlyFor(w.books, op, p.id);
    UntouchedFrame(w, op, p.id);
    BookKeeps(w, u.books, p.id);
  }

  lemma {:induction false} NewPaymentKeeps(w: World, p: Payment)
    requires Inv(w) && p.id !in w.payments && p.hold == PsmIntent(p.id) && p.amount > 0
    requires p.status == PendingAuthorisation && p.post == NoTransfer
    requires p.hold in w.books.transfers && w.books.transfers[p.hold] == HoldTransfer(p)
    requires !DuplicateLevy(w.payments, p.tin, p.period, p.monthly)
    ensures Inv(Save(w, p, false))
  {
    hide At, Agrees, DisputeAgrees, K.WellKept, HoldTransfer;
    var v := Save(w, p, false);
    if Alive(w) {
      NewPaymentAgrees(w, p);
      forall x, y | BothLive(v.payments, x, y) ensures x == y {
        if x != p.id && y != p.id { assert BothLive(w.payments, x, y); }
      }
      OnlyForSelf(w.books, p.id);
      AgreesAnyTime(w, v, p, p.updatedAt);
      assert p.(updatedAt := p.updatedAt) == p;
      RowKeeps(w, v, p);
    }
  }

  lemma {:induction false} NewPaymentAgrees(w: World, p: Payment)
    requires Inv(w) && p.id !in w.payments && p.hold == PsmIntent(p.id) && p.amount > 0
    requires p.status == PendingAuthorisation && p.post == NoTransfer
    requires p.hold in w.books.transfers && w.books.transfers[p.hold] == HoldTransfer(p)
    ensures Agrees(w, p) && DisputeAgrees(w, p)
  {
    assert At(w, p.id) && K.OnceAt(w.books, p.hold);
  }

  /** Voiding the hold of an intent whose row could not be written. */
  lemma {:induction false} OrphanReleaseKeeps(w: World, id: PaymentId)
    requires Inv(w) && id !in w.payments
    ensures Inv(Release(w, PsmIntent(id)))
  {
    if HoldPending(w.books, PsmIntent(id)) {
      var op := L.DoVoid(PsmIntent(id));
      assert At(w, id);
      StepOnlyFor(w.books, op, id);
      UntouchedFrame(w, op, id);
      BookKeeps(w, L.Step(w.books, op), id);
    }
  }

  lemma {:induction false} IntentKeeps(w: World, req: IntentRequest, id: PaymentId, gateOpen: bool, providerKnown: bool, env: Env)
    requires Inv(w) && FreshId(w, id)
    ensures Inv(CreateIntent(w, req, id, gateOpen, providerKnown, env))
  {
    hide Inv, L.Hold, EnsureAccount, Release, HoldTransfer;
    var p := NewPayment(id, req, env);
    var w0 := EnsureAccount(w, Payer(p.tin));
    var w1 := EnsureAccount(w0, Collections);
    EnsureKeeps(w, Payer(p.tin));
    EnsureKeeps(w0, Collections);
    var (books, r) := L.Hold(w1.books, p.hold, HoldTransfer(p));
    if p.amount > 0 && r.Ok? && !DuplicateLevy(w.payments, p.tin, p.period, p.monthly) {
      var w2 := Book(w1, books);
      IntentHoldKeeps(w1, p);
      var w3 := Save(w2, p, env.saveFault);
      if env.saveFault {
        SpendKeeps(w2, w3.life);
        OrphanReleaseKeeps(w3, id);
      } else if Alive(w1) {
        NewPaymentKeeps(w2, p);
      }
    }
  }

  // ---------------------------------------------------------------- disputes

  /** The dispute hold is placed, or stays as it was. */
  lemma {:induction false} DisputeHoldLeg(b: L.State, p: Payment)
    requires K.Moves(b.journal, PsmDisputeHold(p.id)) == 0
    ensures var c, hold := L.Hold(b, PsmDisputeHold(p.id), DisputeTransfer(p)).0, PsmDisputeHold(p.id);
            && K.Moves(c.journal, hold) == 0
            && if hold in b.transfers then hold in c.transfers && c.transfers[hold] == b.transfers[hold]
               else hold in c.transfers ==> c.transfers[hold] == DisputeTransfer(p)
  {
  }

  lemma {:induction false} DisputeHoldAgrees(w: World, p: Payment)
    requires Agrees(w, p) && DisputeAgrees(w, p)
    ensures var v := w.(books := L.Hold(w.books, PsmDisputeHold(p.id), DisputeTransfer(p)).0);
            Agrees(v, p) && DisputeAgrees(v, p)
  {
    hide L.Hold, Agrees, LegAgrees, K.SameRecord, SameCaptureLegs, K.Moves;
    var op := L.DoHold(PsmDisputeHold(p.id), DisputeTransfer(p));
    CaptureLegsStay(w.books, op, p.id);
    CaptureLegsDecide(w, L.Step(w.books, op), p);
    K.StepFrame(w.books, op, PsmDisputeDebit(p.id));
    DisputeHoldLeg(w.books, p);
    DisputeHoldFrame(w, L.Step(w.books, op), p);
  }

  /** Books that differ only by the dispute hold, new or as it was, agree with the dispute. */
  lemma {:induction false} DisputeHoldFrame(w: World, books: L.State, p: Payment)
    requires DisputeAgrees(w, p) && K.SameRecord(w.books, books, PsmDisputeDebit(p.id))
    requires var hold := PsmDisputeHold(p.id);
             if hold in w.books.transfers then hold in books.transfers && books.transfers[hold] == w.books.transfers[hold]
             else hold in books.transfers ==> books.transfers[hold] == DisputeTransfer(p)
    requires K.Moves(books.journal, PsmDisputeHold(p.id)) == 0
    ensures DisputeAgrees(w.(books := books), p)
  {
  }

  lemma {:induction false} DisputeHoldKeeps(w: World, p: Payment)
    requires Inv(w) && p.id in w.payments && w.payments[p.id] == p
    ensures var (books, r) := L.Hold(w.books, PsmDisputeHold(p.id), DisputeTransfer(p));
            var v := Book(w, books);
            && Inv(v) && v.payments == w.payments && v.disputes == w.disputes
            && (r.Ok? && Alive(w) ==> PsmDisputeHold(p.id) in v.books.transfers)
  {
    hide AgreesOn, DisputeAgreesOn, OnlyFor;
    var op := L.DoHold(PsmDisputeHold(p.id), DisputeTransfer(p));
    var u := w.(books := L.Step(w.books, op));
    assert At(w, p.id);
    StepOnlyFor(w.books, op, p.id);
    DisputeHoldAgrees(w, p);
    BookKeeps(w, u.books, p.id);
  }

  /** Recording a dispute whose hold is placed, and then marking the payment. */
  lemma {:induction false} RecordDisputeKeeps(w: World, p: Payment, env: Env)
    requires Inv(w) && p.id in w.payments && w.payments[p.id] == p && Disputable(p.status)
    requires p.id !in w.disputes && (Alive(w) ==> PsmDisputeHold(p.id) in w.books.transfers)
    ensures Inv(RecordDispute(w, p, env).0)
  {
    hide Inv, Agrees, DisputeAgrees, OnlyFor;
    var d := Dispute(p.amount, Open, p.status, PsmDisputeHold(p.id));
    var w1 := SaveDispute(w, p.id, d, env.saveFault);
    if !Alive(w) || env.saveFault {
      SpendKeeps(w, w1.life);
    } else {
      RowAgrees(w, p.id);
      InvUnique(w);
      NothingOnlyFor(w, p.id);
      RecordedAgrees(w, w1, p, env.now);
      assert w1.payments == w.payments[p.id := p];
      RowKeeps(w, w1, p);
      SaveKeeps(w1, p.(status := Disputed, updatedAt := env.now), env.finalFault);
    }
  }

  /** A payment with a newly recorded dispute agrees, marked disputed or not yet. */
  lemma {:induction false} RecordedAgrees(w: World, v: World, p: Payment, now: int)
    requires Agrees(w, p) && DisputeAgrees(w, p) && Disputable(p.status) && PsmDisputeHold(p.id) in w.books.transfers
    requires v.books == w.books && v.certs == w.certs && p.id !in w.disputes && p.id in v.disputes
    requires v.disputes[p.id] == Dispute(p.amount, Open, p.status, PsmDisputeHold(p.id))
    ensures Agrees(v, p) && DisputeAgrees(v, p)
    ensures var q := p.(status := Disputed, updatedAt := now);
            Agrees(v, q) && DisputeAgrees(v, q)
  {
  }

  lemma {:induction false} OpenDisputeKeeps(w: World, id: PaymentId, env: Env)
    requires Inv(w)
    ensures Inv(OpenDispute(w, id, env).0)
  {
    hide Inv, L.Hold, EnsureAccount, RecordDispute, Agrees, DisputeAgrees, DisputeTransfer;
    if id in w.payments && id !in w.disputes && Disputable(w.payments[id].status) {
      RowAgrees(w, id);
      var w0 := EnsureAccount(w, Collections);
      var w1 := EnsureAccount(w0, DisputeHold);
      EnsureKeeps(w, Collections);
      EnsureKeeps(w0, DisputeHold);
      DisputeHoldKeeps(w1, w.payments[id]);
      var (books, r) := L.Hold(w1.books, PsmDisputeHold(id), DisputeTransfer(w.payments[id]));
      if r.Ok? {
        RecordDisputeKeeps(Book(w1, books), w.payments[id], env);
      }
    }
  }

  /** The dispute of the payment is open. */
  predicate Disputing(w: World, p: Payment)
  {
    p.id in w.disputes && w.disputes[p.id].status == Open
  }

  /** Releasing the hold of an open dispute. */
  lemma {:induction false} DisputeVoidAgrees(w: World, p: Payment)
    requires DisputeAgrees(w, p) && Disputing(w, p)
    ensures DisputeAgrees(w.(books := L.Void(w.books, PsmDisputeHold(p.id)).0), p)
  {
    hide L.Void, LegAgrees, K.SameRecord, K.Moves;
    var hold := PsmDisputeHold(p.id);
    if HoldPending(w.books, hold) {
      VoidsHold(w.books, hold);
      K.StepFrame(w.books, L.DoVoid(hold), PsmDisputeDebit(p.id));
      DisputeVoidFrame(w, L.Void(w.books, hold).0, p);
    } else {
      VoidRefused(w.books, hold);
      assert w.(books := w.books) == w;
    }
  }

  lemma {:induction false} VoidRefused(b: L.State, hold: TransferId)
    requires !HoldPending(b, hold)
    ensures L.Void(b, hold).0 == b
  {
  }

  lemma {:induction false} DisputeVoidFrame(w: World, books: L.State, p: Payment)
    requires DisputeAgrees(w, p) && Disputing(w, p) && K.SameRecord(w.books, books, PsmDisputeDebit(p.id))
    requires var hold := PsmDisputeHold(p.id);
             && hold in w.books.transfers && hold in books.transfers
             && books.transfers[hold] == w.books.transfers[hold].(pending := false)
             && K.Moves(books.journal, hold) == K.Moves(w.books.journal, hold)
    ensures DisputeAgrees(w.(books := books), p)
  {
  }

  /** Posting the hold of an open dispute: the chargeback debit lands in full, or nothing changes. */
  lemma {:induction false} DisputePostLeg(w: World, p: Payment)
    requires DisputeAgrees(w, p) && Disputing(w, p)
    ensures var hold, debit := PsmDisputeHold(p.id), PsmDisputeDebit(p.id);
            var books := L.Post(w.books, hold, debit, p.amount).0;
            || books == w.books
            || (&& hold in books.transfers && books.transfers[hold] == DisputeTransfer(p).(pending := false)
                && debit in books.transfers && K.Moves(books.journal, hold) == 0
                && LegAgrees(books, debit, DisputeTransfer(p).(pending := false)))
  {
  }

  lemma {:induction false} DisputePostAgrees(w: World, p: Payment)
    requires DisputeAgrees(w, p) && Disputing(w, p)
    ensures DisputeAgrees(w.(books := L.Post(w.books, PsmDisputeHold(p.id), PsmDisputeDebit(p.id), p.amount).0), p)
  {
    hide L.Post, LegAgrees, K.Moves;
    DisputePostLeg(w, p);
    if L.Post(w.books, PsmDisputeHold(p.id), PsmDisputeDebit(p.id), p.amount).0 == w.books {
      assert w.(books := w.books) == w;
    }
  }

  predicate Consumes(op: L.Op, p: Payment)
  {
    op == L.DoVoid(PsmDisputeHold(p.id)) || op == L.DoPost(PsmDisputeHold(p.id), PsmDisputeDebit(p.id), p.amount)
  }

  lemma {:induction false} DisputeConsumeAgrees(w: World, p: Payment, op: L.Op)
    requires Agrees(w, p) && DisputeAgrees(w, p) && Disputing(w, p) && Consumes(op, p)
    ensures K.Disciplined(w.books, op)
    ensures var v := w.(books := L.Step(w.books, op));
            Agrees(v, p) && DisputeAgrees(v, p)
  {
    hide Agrees, LegAgrees, L.Post, L.Void, SameCaptureLegs;
    CaptureLegsStay(w.books, op, p.id);
    CaptureLegsDecide(w, L.Step(w.books, op), p);
    if op.DoVoid? { DisputeVoidAgrees(w, p); } else { DisputePostAgrees(w, p); }
  }

  lemma {:induction false} SaveDisputeKeeps(w: World, p: Payment, d: Dispute)
    requires Inv(w) && p.id in w.payments && w.payments[p.id] == p && p.id in w.disputes
    requires d == w.disputes[p.id].(status := d.status) && w.disputes[p.id].status == Open && d.status.Resolved?
    requires Consumed(w, p.id, d.status.outcome)
    ensures Inv(SaveDispute(w, p.id, d, false))
  {
    hide Inv, Agrees, DisputeAgrees, OnlyFor;
    var v := SaveDispute(w, p.id, d, false);
    if Alive(w) {
      RowAgrees(w, p.id);
      assert v.payments == w.payments[p.id := p];
      NothingOnlyFor(w, p.id);
      ResolvedAgrees(w, v, p, d);
      InvUnique(w);
      RowKeeps(w, v, p);
    }
  }

  /** A disputed payment agrees with its dispute resolved as its hold was consumed. */
  lemma {:induction false} ResolvedAgrees(w: World, v: World, p: Payment, d: Dispute)
    requires Agrees(w, p) && DisputeAgrees(w, p) && p.id in w.disputes
    requires d == w.disputes[p.id].(status := d.status) && w.disputes[p.id].status == Open && d.status.Resolved?
    requires Consumed(w, p.id, d.status.outcome)
    requires v.books == w.books && v.certs == w.certs && p.id in v.disputes && v.disputes[p.id] == d
    ensures Agrees(v, p) && DisputeAgrees(v, p)
  {
  }

  /** The writes of ResolveDispute after the ledger call. */
  lemma {:induction false} CloseDisputeKeeps(w: World, p: Payment, d: Dispute, outcome: Outcome, env: Env)
    requires Inv(w) && p.id in w.payments && w.payments[p.id] == p && p.id in w.disputes && w.disputes[p.id] == d
    requires d.status == Open && (Alive(w) ==> Consumed(w, p.id, outcome))
    requires p.status == Compensated ==> env.saveFault || env.finalFault || !Lives(w.life, 2)
    ensures Inv(CloseDispute(w, p, d, outcome, env).0)
  {
    hide Inv, Agrees, LegAgrees;
    var w1 := SaveDispute(w, p.id, d.(status := Resolved(outcome)), env.saveFault);
    RowAgrees(w, p.id);
    if !Alive(w) {
      assert CloseDispute(w, p, d, outcome, env).0 == w;
    } else if env.saveFault {
      SpendKeeps(w, w1.life);
    } else {
      SaveDisputeKeeps(w, p, d.(status := Resolved(outcome)));
      if p.status == Compensated {
        var q := p.(status := if outcome == Won then d.prior else ChargedBack, updatedAt := env.now);
        SpendKeeps(w1, Save(w1, q, true).life);
        assert Save(w1, q, env.finalFault) == w1.(life := Save(w1, q, true).life);
      } else {
        RestoreKeeps(w1, p, outcome, env);
      }
    }
  }

  /** The dispute hold was consumed the way the outcome says. */
  predicate Consumed(w: World, id: PaymentId, outcome: Outcome)
  {
    if outcome == Lost then PsmDisputeDebit(id) in w.books.transfers
    else PsmDisputeDebit(id) !in w.books.transfers && !HoldPending(w.books, PsmDisputeHold(id))
  }

  /** The last write of ResolveDispute: restore the prior status, or charge back. */
  lemma {:induction false} RestoreKeeps(w: World, p: Payment, outcome: Outcome, env: Env)
    requires Inv(w) && p.id in w.payments && w.payments[p.id] == p
    requires p.id in w.disputes && w.disputes[p.id].status == Resolved(outcome)
    requires p.status == Disputed || (Onward(w.disputes[p.id].prior, p.status) && p.status != Compensated)
    ensures Inv(Save(w, p.(status := if outcome == Won then w.disputes[p.id].prior else ChargedBack, updatedAt := env.now),
                     env.finalFault))
  {
    var q := p.(status := if outcome == Won then w.disputes[p.id].prior else ChargedBack, updatedAt := env.now);
    hide Inv, Agrees, DisputeAgrees;
    RowAgrees(w, p.id);
    RestoredAgrees(w, p, outcome, env.now);
    SaveKeeps(w, q, env.finalFault);
  }

  lemma {:induction false} RestoredAgrees(w: World, p: Payment, outcome: Outcome, now: int)
    requires Agrees(w, p) && DisputeAgrees(w, p)
    requires p.id in w.disputes && w.disputes[p.id].status == Resolved(outcome)
    requires p.status == Disputed || (Onward(w.disputes[p.id].prior, p.status) && p.status != Compensated)
    ensures var q := p.(status := if outcome == Won then w.disputes[p.id].prior else ChargedBack, updatedAt := now);
            Agrees(w, q) && DisputeAgrees(w, q)
  {
  }

  /** The ledger call of ResolveDispute. */
  lemma {:induction false} DisputeBookKeeps(w: World, p: Payment, op: L.Op)
    requires Inv(w) && Stored(w, p) && Disputing(w, p) && Consumes(op, p)
    ensures Inv(Book(w, L.Step(w.books, op)))
  {
    hide AgreesOn, DisputeAgreesOn, OnlyFor;
    assert At(w, p.id);
    DisputeConsumeAgrees(w, p, op);
    StepOnlyFor(w.books, op, p.id);
    BookKeeps(w, L.Step(w.books, op), p.id);
  }

  /**
   Resolving the dispute rewrites a compensated payment: the dispute was recorded
   while the payment's mark was lost, and the payment was compensated since.
   */
  predicate Revives(w: World, id: PaymentId, outcome: Option<Outcome>, env: Env)
  {
    && outcome.Some? && id in w.payments && w.payments[id].status == Compensated
    && id in w.disputes && w.disputes[id].status == Open
    && (if outcome.value == Won then L.Void(w.books, w.disputes[id].hold).1
        else L.Post(w.books, w.disputes[id].hold, PsmDisputeDebit(id), w.disputes[id].amount).1).Ok?
    && !env.saveFault && !env.finalFault && Lives(w.life, 3)
  }

  lemma {:induction false} WonKeeps(w: World, p: Payment, d: Dispute, env: Env)
    requires Inv(w) && p.id in w.payments && w.payments[p.id] == p
    requires p.id in w.disputes && w.disputes[p.id] == d && d.status == Open && !Revives(w, p.id, Some(Won), env)
    ensures var (books, r) := L.Void(w.books, d.hold);
            Inv(Book(w, books)) && (r.Ok? ==> Inv(CloseDispute(Book(w, books), p, d, Won, env).0))
  {
    hide Inv, Agrees, LegAgrees, L.Void, CloseDispute;
    RowAgrees(w, p.id);
    ConsumedFacts(w, p, Won);
    DisputeBookKeeps(w, p, L.DoVoid(d.hold));
    if L.Void(w.books, d.hold).1.Ok? { CloseDisputeKeeps(Book(w, L.Void(w.books, d.hold).0), p, d, Won, env); }
  }

  lemma {:induction false} LostKeeps(w: World, p: Payment, d: Dispute, env: Env)
    requires Inv(w) && p.id in w.payments && w.payments[p.id] == p
    requires p.id in w.disputes && w.disputes[p.id] == d && d.status == Open && !Revives(w, p.id, Some(Lost), env)
    ensures var (books, r) := L.Post(w.books, d.hold, PsmDisputeDebit(p.id), d.amount);
            Inv(Book(w, books)) && (r.Ok? ==> Inv(CloseDispute(Book(w, books), p, d, Lost, env).0))
  {
    var op := L.DoPost(d.hold, PsmDisputeDebit(p.id), d.amount);
    hide Inv, Agrees, LegAgrees, L.Post, CloseDispute;
    RowAgrees(w, p.id);
    ConsumedFacts(w, p, Lost);
    DisputeBookKeeps(w, p, op);
    if L.Post(w.books, d.hold, PsmDisputeDebit(p.id), d.amount).1.Ok? {
      CloseDisputeKeeps(Book(w, L.Step(w.books, op)), p, d, Lost, env);
    }
  }

  lemma {:induction false} ResolveDisputeKeeps(w: World, id: PaymentId, outcome: Option<Outcome>, env: Env)
    requires Inv(w) && !Revives(w, id, outcome, env)
    ensures Inv(ResolveDispute(w, id, outcome, env).0)
  {
    hide Inv, Agrees, DisputeAgrees, CloseDispute;
    if outcome.Some? && id in w.payments && id in w.disputes && w.disputes[id].status == Open {
      RowAgrees(w, id);
      if outcome.value == Won {
        WonKeeps(w, w.payments[id], w.disputes[id], env);
      } else {
        LostKeeps(w, w.payments[id], w.disputes[id], env);
      }
    }
  }

  lemma {:induction false} ConsumedFacts(w: World, p: Payment, outcome: Outcome)
    requires DisputeAgrees(w, p) && p.id in w.disputes && w.disputes[p.id].status == Open
    ensures var (b, r) := if outcome == Won then L.Void(w.books, PsmDisputeHold(p.id))
                          else L.Post(w.books, PsmDisputeHold(p.id), PsmDisputeDebit(p.id), p.amount);
            r.Ok? ==> Consumed(w.(books := b), p.id, outcome)
  {
  }

  // ---------------------------------------------------------------- webhooks, sweep, other services

  lemma {:induction false} MarkKeeps(w: World, hook: Webhook, env: Env)
    requires Inv(w)
    ensures Inv(MarkProcessed(w, hook, env))
  {
    hide At, K.WellKept, K.SameRecord;
    var v := MarkProcessed(w, hook, env);
    forall x ensures At(v, x) {
      SameRecords(w.books, v.books, x);
      AtFrame(w, v, x);
    }
  }

  /** The webhook gets as far as capturing the payment. */
  predicate Captures(w: World, hook: Webhook, id: PaymentId, env: Env)
  {
    && ResolvesTo(w, hook, id) && EventId(hook.provider, hook.reference, hook.event) !in w.events
    && hook.event == ChargeSuccessful && ValueVerified(w.payments[id], hook, env.valueCheck)
  }

  /** The webhook loses a compensation or undoes one. */
  predicate HookLoses(w: World, hook: Webhook, id: PaymentId, env: Env)
  {
    || (Captures(w, hook, id, env) && CaptureLoses(w, id, env))
    || (&& ResolvesTo(w, hook, id) && EventId(hook.provider, hook.reference, hook.event) !in w.events
        && hook.event == DisputeResolve && Revives(w, id, hook.outcome, env))
  }

  lemma {:induction false} ChargeHookKeeps(w: World, hook: Webhook, id: PaymentId, env: Env)
    requires Inv(w) && ResolvesTo(w, hook, id) && hook.event == ChargeSuccessful
    requires !(Captures(w, hook, id, env) && CaptureLoses(w, id, env))
    ensures Inv(HandleWebhook(w, hook, id, env))
  {
    hide Inv, Capture, MarkProcessed, CaptureLoses;
    MarkKeeps(w, hook, env);
    if !CaptureLoses(w, id, env) {
      CaptureKeeps(w, id, env);
      MarkKeeps(Capture(w, id, env), hook, env);
    }
  }

  lemma {:induction false} WebhookKeeps(w: World, hook: Webhook, id: PaymentId, env: Env)
    requires Inv(w) && !HookLoses(w, hook, id, env)
    ensures Inv(HandleWebhook(w, hook, id, env))
  {
    hide Inv, Capture, Void, OpenDispute, ResolveDispute, MarkProcessed, CaptureLoses, Revives, ValueVerified;
    if ResolvesTo(w, hook, id) {
      match hook.event
      case ChargeSuccessful => ChargeHookKeeps(w, hook, id, env);
      case ChargeFailed =>
        VoidKeeps(w, id, env);
        MarkKeeps(Void(w, id, env).0, hook, env);
      case AuthorisationVoided =>
        VoidKeeps(w, id, env);
        MarkKeeps(Void(w, id, env).0, hook, env);
      case AuthorisationSuccessful => LateAuthorisationKeeps(w, hook, id, env);
      case DisputeCreate =>
        OpenDisputeKeeps(w, id, env);
        MarkKeeps(OpenDispute(w, id, env).0, hook, env);
      case DisputeResolve =>
        if EventId(hook.provider, hook.reference, hook.event) !in w.events {
          ResolveDisputeKeeps(w, id, hook.outcome, env);
          MarkKeeps(ResolveDispute(w, id, hook.outcome, env).0, hook, env);
        }
      case UnknownEvent =>
    }
  }

  lemma {:induction false} LateAuthorisationKeeps(w: World, hook: Webhook, id: PaymentId, env: Env)
    requires Inv(w) && id in w.payments && hook.event == AuthorisationSuccessful
    ensures Inv(HandleWebhook(w, hook, id, env))
  {
    hide Inv, MarkProcessed, AgreesOn, DisputeAgreesOn;
    var p := w.payments[id];
    MarkKeeps(w, hook, env);
    if p.status in {Intent, PendingAuthorisation} {
      RowAgrees(w, id);
      AuthorisedAgrees(w, p, p.ref, env.now);
      assert p.(ref := p.ref) == p;
      var q := p.(status := Authorised, updatedAt := env.now);
      SaveKeeps(w, q, env.saveFault);
      MarkKeeps(Save(w, q, env.saveFault), hook, env);
    }
  }

  /** Sweeping the payment finishes it and loses its compensation. */
  predicate SweepLoses(w: World, p: Payment, env: Env)
  {
    || (p.status == AwaitingPost && Loses(w, p, env, 0))
    || (p.status == CaptureInFlight && env.verify.Says? && env.verify.status == AtCaptured && !env.saveFault
        && Loses(w, AwaitingPostOf(p, env.verify.settled, env.now), env, 1))
  }

  lemma {:induction false} InFlightKeeps(w: World, p: Payment, env: Env)
    requires Inv(w) && Stored(w, p) && p.status == CaptureInFlight && !SweepLoses(w, p, env)
    ensures Inv(ResolveInFlight(w, p, env))
  {
    hide Inv, Finish, Agrees, DisputeAgrees;
    if env.verify.Says? {
      if env.verify.status != AtCaptured {
        FailKeeps(w, p, p.(status := Failed, updatedAt := env.now), env.finalFault);
      } else {
        var q := AwaitingPostOf(p, env.verify.settled, env.now);
        if !Alive(w) {
          DeadTail(w, q, env);
        } else if env.saveFault {
          SpendKeeps(w, Save(w, q, true).life);
        } else {
          AwaitKeeps(w, p, q);
          FinishKeeps(Save(w, q, false), q, env);
        }
      }
    }
  }

  lemma {:induction false} SweepOneKeeps(w: World, p: Payment, env: Env)
    requires Inv(w) && Stored(w, p) && !SweepLoses(w, p, env)
    ensures Inv(SweepOne(w, p, env))
  {
    hide Inv, Finish, Save, Release, ResolveInFlight, Agrees, DisputeAgrees, RetryFailedRefund;
    RowAgrees(w, p.id);
    match p.status
    case Captured => SettleKeeps(w, p, env);
    case AwaitingPost => ResumeKeeps(w, p, env);
    case Intent => FailKeeps(w, p, p.(status := Expired, updatedAt := env.now), env.saveFault);
    case PendingAuthorisation => FailKeeps(w, p, p.(status := Expired, updatedAt := env.now), env.saveFault);
    case CaptureInFlight => InFlightKeeps(w, p, env);
    case Failed => Released(w, p);
    case Compensated =>
      Released(w, p);
      RetryKeeps(w, p, env);
    case _ =>
  }

  lemma {:induction false} SettleKeeps(w: World, p: Payment, env: Env)
    requires Inv(w) && Stored(w, p) && p.status == Captured
    ensures Inv(Settle(w, p, env))
  {
    RowAgrees(w, p.id);
    SaveKeeps(w, p.(status := Settled, updatedAt := env.now), env.saveFault);
  }

  lemma {:induction false} ResumeKeeps(w: World, p: Payment, env: Env)
    requires Inv(w) && Stored(w, p) && p.status == AwaitingPost && !Loses(w, p, env, 0)
    ensures Inv(Resume(w, p, env))
  {
    RowAgrees(w, p.id);
    hide Inv, Finish;
    FinishKeeps(w, p, env);
  }

  /** A failed or compensated payment has no hold left to release. */
  lemma {:induction false} Released(w: World, p: Payment)
    requires Agrees(w, p) && p.status in {Failed, Compensated}
    ensures !HoldPending(w.books, p.hold)
  {
  }

  /** The exact condition for a swept payment, cut off anywhere. */
  lemma {:induction false} SweepOneKeepsIff(w: World, p: Payment, env: Env)
    requires Inv(w) && Stored(w, p)
    ensures Inv(SweepOne(w, p, env)) <==> !SweepLoses(w, p, env)
  {
    hide Inv, Finish, Agrees, DisputeAgrees, ResolveInFlight, L.Post;
    if !SweepLoses(w, p, env) {
      SweepOneKeeps(w, p, env);
    } else if p.status == AwaitingPost {
      AwaitingNamesPost(w, p);
      FinishKeepsIff(w, p, env);
    } else {
      InFlightLoses(w, p, env);
    }
  }

  lemma {:induction false} InFlightLoses(w: World, p: Payment, env: Env)
    requires Inv(w) && Stored(w, p) && p.status == CaptureInFlight && SweepLoses(w, p, env)
    ensures !Inv(ResolveInFlight(w, p, env))
  {
    hide Inv, Finish, L.Post;
    var q := AwaitingPostOf(p, env.verify.settled, env.now);
    AwaitKeeps(w, p, q);
    FinishKeepsIff(Save(w, q, false), q, env);
  }

  lemma {:induction false} AwaitingNamesPost(w: World, p: Payment)
    requires Inv(w) && Stored(w, p) && p.status == AwaitingPost
    ensures p.post == PsmPost(p.id)
  {
    RowAgrees(w, p.id);
  }

  lemma {:induction false} RetryKeeps(w: World, p: Payment, env: Env)
    requires Inv(w)
    ensures Inv(RetryFailedRefund(w, p, env))
  {
    hide At, RetryRefunds, K.WellKept, K.SameRecord;
    var v := RetryFailedRefund(w, p, env);
    forall x ensures At(v, x) {
      SameRecords(w.books, v.books, x);
      AtFrame(w, v, x);
    }
  }

  /** What another service may do to the shared ledger. */
  ghost predicate Foreign(b: L.State, op: L.Op)
  {
    && K.Disciplined(b, op)
    && (forall x, t :: Mine(t, x) ==> !K.Names(op, t))
    && (op.DoCreate? ==> forall i :: 0 <= i < |op.batch| && PsmAccount(op.batch[i].id) ==> op.batch[i].account == PSM_ACCOUNT)
  }

  lemma {:induction false} OpenAllPlain(b: L.State, batch: seq<L.AccountSpec>)
    requires AccountsPlain(b)
    requires forall i :: 0 <= i < |batch| && PsmAccount(batch[i].id) ==> batch[i].account == PSM_ACCOUNT
    ensures AccountsPlain(L.OpenAll(b, batch))
  {
    if batch != [] {
      var n := |batch| - 1;
      OpenAllPlain(b, batch[..n]);
      forall a ensures PlainAt(L.OpenAll(b, batch), a) { assert PlainAt(L.OpenAll(b, batch[..n]), a); }
    }
  }

  lemma {:induction false} ElsewhereKeeps(w: World, op: L.Op)
    requires Inv(w) && Foreign(w.books, op)
    ensures Inv(w.(books := L.Step(w.books, op)))
  {
    var v := w.(books := L.Step(w.books, op));
    K.StepKeeps(w.books, op);
    if op.DoCreate? { OpenAllPlain(w.books, op.batch); } else { StepPlain(w.books, op); }
    forall x ensures At(v, x) {
      BooksFrame(w.books, op, x);
      AtFrame(w, v, x);
    }
  }
}
