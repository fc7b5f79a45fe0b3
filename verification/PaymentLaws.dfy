/** Status and ledger agree in every run of the payment saga. */
module PaymentLaws {
  import opened Prelude
  import opened Ids
  import opened Payments
  import L = Ledger
  import K = LedgerLaws

  // ---------------------------------------------------------------- the invariant

  predicate PsmAccount(a: AccountId)
  {
    a.Payer? || a == Collections || a == FeeIncome || a == DisputeHold
  }

  predicate PlainAt(b: L.State, a: AccountId)
  {
    a in b.accounts && PsmAccount(a) ==> b.accounts[a] == PSM_ACCOUNT
  }

  ghost predicate AccountsPlain(b: L.State)
  {
    forall a :: PlainAt(b, a)
  }

  /** An optional posted leg: when recorded it is exactly `t` and moved exactly `t.amount`, once; else nothing moved. */
  ghost predicate LegAgrees(b: L.State, id: TransferId, t: L.Transfer)
  {
    if id in b.transfers
    then b.transfers[id] == t && K.Moves(b.journal, id) == 1 && K.AmountMoved(b.journal, id) == t.amount
    else K.Moves(b.journal, id) == 0 && K.AmountMoved(b.journal, id) == 0
  }

  ghost predicate Certified(certs: set<Cert>, id: PaymentId)
  {
    exists year :: Cert(year, id) in certs
  }

  ghost predicate HasCert(w: World, id: PaymentId) { Certified(w.certs, id) }

  predicate Landed(w: World, id: PaymentId) { PsmPost(id) in w.books.transfers }
  predicate Reversed(w: World, id: PaymentId) { PsmCompensation(id) in w.books.transfers }
  predicate FeePosted(w: World, id: PaymentId) { PsmFee(id) in w.books.transfers }

  function DisputeOf(disputes: map<PaymentId, Dispute>, id: PaymentId): Option<Dispute>
  {
    if id in disputes then Some(disputes[id]) else None
  }

  /** Nothing was ever posted for the payment. */
  predicate Unposted(b: L.State, p: Payment)
  {
    p.post == NoTransfer && PsmPost(p.id) !in b.transfers
  }

  /** The post landed, was not reversed, its fee leg is in place and the certificate issued. */
  predicate FullyPosted(b: L.State, certified: bool, p: Payment)
  {
    && p.post == PsmPost(p.id) && PsmPost(p.id) in b.transfers && PsmCompensation(p.id) !in b.transfers
    && certified && (PsmFee(p.id) in b.transfers <==> p.fee > 0)
  }

  /** What a status says about the ledger; a disputed payment keeps what its prior status said. */
  predicate StatusAgrees(b: L.State, certified: bool, p: Payment, s: Status)
  {
    match s
    case Intent => Unposted(b, p)
    case PendingAuthorisation => Unposted(b, p)
    case Authorised => Unposted(b, p)
    case CaptureInFlight => Unposted(b, p)
    case Voided => Unposted(b, p) && !HoldPending(b, p.hold)
    case Failed => Unposted(b, p) && !HoldPending(b, p.hold)
    case Expired => Unposted(b, p) && !HoldPending(b, p.hold)
    case AwaitingPost => p.post == PsmPost(p.id) && PsmCompensation(p.id) !in b.transfers
    case Captured => FullyPosted(b, certified, p)
    case Settled => FullyPosted(b, certified, p)
    case Compensated =>
      p.post == PsmPost(p.id) && !HoldPending(b, p.hold) && (PsmPost(p.id) in b.transfers <==> PsmCompensation(p.id) in b.transfers)
    case Disputed => true
    case ChargedBack => true
  }

  ghost predicate LegsAgree(b: L.State, certified: bool, p: Payment)
  {
    && p.hold == PsmIntent(p.id) && p.amount > 0
    && p.hold in b.transfers && b.transfers[p.hold].(pending := true) == HoldTransfer(p) && K.Moves(b.journal, p.hold) == 0
    && LegAgrees(b, PsmPost(p.id), HoldTransfer(p).(pending := false))
    && LegAgrees(b, PsmCompensation(p.id), ReversalTransfer(p))
    && LegAgrees(b, PsmFee(p.id), FeeTransfer(p))
    && (PsmPost(p.id) in b.transfers ==> !b.transfers[p.hold].pending)
    && (PsmFee(p.id) in b.transfers ==> p.fee > 0)
    && (PsmPost(p.id) !in b.transfers ==>
          PsmCompensation(p.id) !in b.transfers && PsmFee(p.id) !in b.transfers && !certified)
  }

  /** The status whose claims about the ledger apply. */
  function Effective(p: Payment, d: Option<Dispute>): Status
  {
    if p.status in {Disputed, ChargedBack} && d.Some? then d.value.prior else p.status
  }

  /** The record, its legs on the ledger, its certificate and its dispute agree. */
  ghost predicate AgreesOn(b: L.State, certified: bool, d: Option<Dispute>, p: Payment)
  {
    && LegsAgree(b, certified, p)
    && (p.status in {Disputed, ChargedBack} ==> d.Some? && Disputable(d.value.prior))
    && StatusAgrees(b, certified, p, Effective(p, d))
  }

  ghost predicate Agrees(w: World, p: Payment)
  {
    AgreesOn(w.books, Certified(w.certs, p.id), DisputeOf(w.disputes, p.id), p)
  }

  /** Where a payment may be whose dispute was recorded at status `prior` while the payment's own mark was lost. */
  predicate Onward(prior: Status, s: Status)
  {
    match prior
    case Settled => s == Settled
    case Captured => s in {Captured, Settled}
    case AwaitingPost => s in {AwaitingPost, Captured, Settled, Compensated}
    case _ => false
  }

  /** A dispute record, its hold and its chargeback debit agree. */
  ghost predicate DisputeAgreesOn(b: L.State, record: Option<Dispute>, p: Payment)
  {
    var hold, debit := PsmDisputeHold(p.id), PsmDisputeDebit(p.id);
    && (hold in b.transfers ==> b.transfers[hold].(pending := true) == DisputeTransfer(p))
    && K.Moves(b.journal, hold) == 0
    && LegAgrees(b, debit, DisputeTransfer(p).(pending := false))
    && (debit in b.transfers ==> hold in b.transfers && !b.transfers[hold].pending)
    && match record
       case Some(d) =>
         && d.amount == p.amount && d.hold == hold && Disputable(d.prior) && hold in b.transfers
         && (d.status == Open ==> p.status == Disputed || Onward(d.prior, p.status))
         && (d.status == Resolved(Lost) ==>
               debit in b.transfers && (p.status in {Disputed, ChargedBack} || Onward(d.prior, p.status)))
         && (d.status == Resolved(Won) ==> debit !in b.transfers && !b.transfers[hold].pending)
         && (p.status == ChargedBack ==> d.status == Resolved(Lost))
       case None => debit !in b.transfers && p.status !in {Disputed, ChargedBack}
  }

  ghost predicate DisputeAgrees(w: World, p: Payment)
  {
    DisputeAgreesOn(w.books, DisputeOf(w.disputes, p.id), p)
  }

  ghost predicate Blank(b: L.State, t: TransferId)
  {
    t !in b.transfers && K.Moves(b.journal, t) == 0 && K.AmountMoved(b.journal, t) == 0
  }

  /** Nothing but possibly an orphaned hold exists for an id without a payment row. */
  ghost predicate Untouched(w: World, id: PaymentId)
  {
    && DisputeOf(w.disputes, id) == None && !HasCert(w, id)
    && Blank(w.books, PsmPost(id)) && Blank(w.books, PsmCompensation(id)) && Blank(w.books, PsmFee(id))
    && Blank(w.books, PsmDisputeDebit(id)) && Blank(w.books, PsmDisputeHold(id))
  }

  ghost predicate At(w: World, id: PaymentId)
  {
    if id in w.payments
    then w.payments[id].id == id && Agrees(w, w.payments[id]) && DisputeAgrees(w, w.payments[id])
    else Untouched(w, id)
  }

  predicate SameLevy(p: Payment, q: Payment)
  {
    p.tin == q.tin && p.period == q.period && p.monthly == q.monthly
  }

  predicate BothLive(payments: map<PaymentId, Payment>, x: PaymentId, y: PaymentId)
  {
    && x in payments && y in payments
    && Live(payments[x].status) && Live(payments[y].status) && SameLevy(payments[x], payments[y])
  }

  /** At most one live payment per (tin, period, instalment class). */
  ghost predicate UniqueLive(payments: map<PaymentId, Payment>)
  {
    forall x, y :: BothLive(payments, x, y) ==> x == y
  }

  ghost predicate Inv(w: World)
  {
    && K.WellKept(w.books)
    && AccountsPlain(w.books)
    && UniqueLive(w.payments)
    && forall id :: At(w, id)
  }

  // ---------------------------------------------------------------- frames

  /** Nothing about payment `x` differs between the two worlds. */
  ghost predicate SameFor(w: World, v: World, x: PaymentId)
  {
    && (x in w.payments <==> x in v.payments) && (x in w.payments ==> v.payments[x] == w.payments[x])
    && DisputeOf(w.disputes, x) == DisputeOf(v.disputes, x)
    && (HasCert(w, x) <==> HasCert(v, x))
    && SameBooksFor(w.books, v.books, x)
  }

  ghost predicate SameBooksFor(b: L.State, c: L.State, x: PaymentId)
  {
    && K.SameRecord(b, c, PsmIntent(x)) && K.SameRecord(b, c, PsmPost(x)) && K.SameRecord(b, c, PsmFee(x))
    && K.SameRecord(b, c, PsmCompensation(x)) && K.SameRecord(b, c, PsmDisputeHold(x)) && K.SameRecord(b, c, PsmDisputeDebit(x))
  }

  /** What a payment record says depends only on what is recorded for its own id. */
  lemma {:induction false} AgreesFrame(w: World, v: World, p: Payment)
    requires DisputeOf(w.disputes, p.id) == DisputeOf(v.disputes, p.id)
    requires HasCert(w, p.id) <==> HasCert(v, p.id)
    requires SameBooksFor(w.books, v.books, p.id)
    ensures Agrees(w, p) ==> Agrees(v, p)
    ensures DisputeAgrees(w, p) ==> DisputeAgrees(v, p)
  {
  }

  lemma {:induction false} AtFrame(w: World, v: World, x: PaymentId)
    requires At(w, x) && SameFor(w, v, x)
    ensures At(v, x)
  {
    if x in w.payments && w.payments[x].id == x { AgreesFrame(w, v, w.payments[x]); }
  }

  /** The payment a tagged id belongs to. */
  predicate Mine(t: TransferId, id: PaymentId)
  {
    (t.PsmIntent? || t.PsmPost? || t.PsmFee? || t.PsmCompensation? || t.PsmDisputeHold? || t.PsmDisputeDebit?) && t.pay == id
  }

  /** A ledger step that names no id of `x` leaves everything recorded for `x` alone. */
  lemma {:induction false} BooksFrame(b: L.State, op: L.Op, x: PaymentId)
    requires forall t :: Mine(t, x) ==> !K.Names(op, t)
    ensures SameBooksFor(b, L.Step(b, op), x)
  {
    assert Mine(PsmIntent(x), x) && Mine(PsmPost(x), x) && Mine(PsmFee(x), x);
    assert Mine(PsmCompensation(x), x) && Mine(PsmDisputeHold(x), x) && Mine(PsmDisputeDebit(x), x);
    K.StepFrame(b, op, PsmIntent(x));
    K.StepFrame(b, op, PsmPost(x));
    K.StepFrame(b, op, PsmFee(x));
    K.StepFrame(b, op, PsmCompensation(x));
    K.StepFrame(b, op, PsmDisputeHold(x));
    K.StepFrame(b, op, PsmDisputeDebit(x));
  }

  // ---------------------------------------------------------------- durable calls

  /** Rewriting a payment without reviving it keeps live payments unique. */
  lemma {:induction false} UniqueAfter(payments: map<PaymentId, Payment>, p: Payment)
    requires UniqueLive(payments) && p.id in payments && SameLevy(p, payments[p.id])
    requires Live(p.status) ==> Live(payments[p.id].status)
    ensures UniqueLive(payments[p.id := p])
  {
    var after := payments[p.id := p];
    forall x, y | BothLive(after, x, y) ensures x == y {
      assert BothLive(payments, x, y);
    }
  }

  /** `c` follows `b` by ledger calls that concern only payment `id`. */
  ghost predicate OnlyFor(b: L.State, c: L.State, id: PaymentId)
  {
    && K.WellKept(c) && AccountsPlain(c)
    && forall x :: x != id ==> SameBooksFor(b, c, x)
  }

  lemma {:induction false} OnlyForSelf(b: L.State, id: PaymentId)
    requires K.WellKept(b) && AccountsPlain(b)
    ensures OnlyFor(b, b, id)
  {
    forall x | x != id ensures SameBooksFor(b, b, x) { }
  }

  /** Rewriting one row, with whatever else concerns only that payment, keeps the invariant when the row agrees. */
  lemma {:induction false} RowKeeps(w: World, v: World, p: Payment)
    requires Inv(w) && OnlyFor(w.books, v.books, p.id)
    requires v.payments == w.payments[p.id := p] && UniqueLive(v.payments)
    requires forall x :: x != p.id ==> DisputeOf(w.disputes, x) == DisputeOf(v.disputes, x)
    requires forall x :: x != p.id ==> (Certified(w.certs, x) <==> Certified(v.certs, x))
    requires Agrees(v, p) && DisputeAgrees(v, p)
    ensures Inv(v)
  {
    forall x ensures At(v, x) {
      if x != p.id { AtFrame(w, v, x); }
    }
  }

  lemma {:induction false} SaveKeeps(w: World, p: Payment, fault: bool)
    requires Inv(w) && p.id in w.payments && SameLevy(p, w.payments[p.id])
    requires Live(p.status) ==> Live(w.payments[p.id].status)
    requires Agrees(w, p) && DisputeAgrees(w, p)
    ensures Inv(Save(w, p, fault))
  {
    var v := Save(w, p, fault);
    if !Alive(w) || fault {
      SpendKeeps(w, v.life);
    } else {
      UniqueAfter(w.payments, p);
      OnlyForSelf(w.books, p.id);
      RowKeeps(w, v, p);
    }
  }

  lemma {:induction false} SpendKeeps(w: World, life: Life)
    requires Inv(w)
    ensures Inv(w.(life := life))
  {
    forall x ensures At(w.(life := life), x) { AtFrame(w, w.(life := life), x); }
  }

  lemma {:induction false} StepOnlyFor(b: L.State, op: L.Op, id: PaymentId)
    requires K.WellKept(b) && AccountsPlain(b) && K.Disciplined(b, op) && !op.DoCreate?
    requires forall t :: K.Names(op, t) ==> Mine(t, id)
    ensures OnlyFor(b, L.Step(b, op), id)
  {
    K.StepKeeps(b, op);
    StepPlain(b, op);
    forall x | x != id ensures SameBooksFor(b, L.Step(b, op), x) {
      BooksFrame(b, op, x);
    }
  }

  lemma {:induction false} BookKeeps(w: World, books: L.State, id: PaymentId)
    requires Inv(w) && OnlyFor(w.books, books, id) && At(w.(books := books), id)
    ensures Inv(Book(w, books))
  {
    hide At, K.WellKept, K.SameRecord;
    var v := Book(w, books);
    if Alive(w) {
      forall x ensures At(v, x) {
        SameRecords(books, books, x);
        if x == id { AtFrame(w.(books := books), v, id); } else { AtFrame(w, v, x); }
      }
    }
  }

  lemma {:induction false} StepPlain(b: L.State, op: L.Op)
    requires AccountsPlain(b) && !op.DoCreate?
    ensures L.Step(b, op).accounts == b.accounts && AccountsPlain(L.Step(b, op))
  {
    assert L.Step(b, op).accounts == b.accounts;
    forall a ensures PlainAt(L.Step(b, op), a) { assert PlainAt(b, a); }
  }

  /** The hold of the payment was released, and nothing else recorded for the payment changed. */
  ghost predicate HoldReleased(b: L.State, c: L.State, id: PaymentId)
  {
    && PsmIntent(id) in b.transfers && PsmIntent(id) in c.transfers
    && c.transfers[PsmIntent(id)] == b.transfers[PsmIntent(id)].(pending := false)
    && K.Moves(c.journal, PsmIntent(id)) == K.Moves(b.journal, PsmIntent(id))
    && K.SameRecord(b, c, PsmPost(id)) && K.SameRecord(b, c, PsmFee(id)) && K.SameRecord(b, c, PsmCompensation(id))
    && K.SameRecord(b, c, PsmDisputeHold(id)) && K.SameRecord(b, c, PsmDisputeDebit(id))
  }

  lemma {:induction false} VoidsHold(b: L.State, hold: TransferId)
    requires HoldPending(b, hold) && !hold.Random?
    ensures var c := L.Void(b, hold).0;
            && hold in c.transfers && c.transfers[hold] == b.transfers[hold].(pending := false)
            && K.Moves(c.journal, hold) == K.Moves(b.journal, hold)
  {
  }

  lemma {:induction false} VoidReleases(b: L.State, id: PaymentId)
    requires HoldPending(b, PsmIntent(id))
    ensures HoldReleased(b, L.Void(b, PsmIntent(id)).0, id)
  {
    hide L.Void, K.SameRecord, K.Moves;
    VoidsHold(b, PsmIntent(id));
    var op := L.DoVoid(PsmIntent(id));
    K.StepFrame(b, op, PsmPost(id));
    K.StepFrame(b, op, PsmFee(id));
    K.StepFrame(b, op, PsmCompensation(id));
    K.StepFrame(b, op, PsmDisputeHold(id));
    K.StepFrame(b, op, PsmDisputeDebit(id));
  }

  lemma {:induction false} ReleasedAgrees(w: World, books: L.State, p: Payment)
    requires Agrees(w, p) && HoldReleased(w.books, books, p.id)
    ensures Agrees(w.(books := books), p) && !HoldPending(books, p.hold)
  {
  }

  lemma {:induction false} DisputeFrame(w: World, books: L.State, p: Payment)
    requires DisputeAgrees(w, p)
    requires K.SameRecord(w.books, books, PsmDisputeHold(p.id)) && K.SameRecord(w.books, books, PsmDisputeDebit(p.id))
    ensures DisputeAgrees(w.(books := books), p)
  {
  }

  /** Releasing the intent hold is allowed in every status. */
  lemma {:induction false} ReleaseAgrees(w: World, p: Payment)
    requires Agrees(w, p) && HoldPending(w.books, p.hold)
    ensures var v := w.(books := L.Void(w.books, p.hold).0);
            && HoldReleased(w.books, v.books, p.id)
            && Agrees(v, p) && (DisputeAgrees(w, p) ==> DisputeAgrees(v, p)) && !HoldPending(v.books, p.hold)
  {
    hide L.Void, DisputeAgrees, LegAgrees, StatusAgrees, HoldReleased;
    var books := L.Void(w.books, PsmIntent(p.id)).0;
    VoidReleases(w.books, p.id);
    ReleasedAgrees(w, books, p);
    if DisputeAgrees(w, p) { ReleasedDispute(w, books, p); }
  }

  lemma {:induction false} ReleasedDispute(w: World, books: L.State, p: Payment)
    requires DisputeAgrees(w, p) && HoldReleased(w.books, books, p.id)
    ensures DisputeAgrees(w.(books := books), p)
  {
    hide DisputeAgrees;
    DisputeFrame(w, books, p);
  }

  /** The stored row of the payment agrees with the released hold. */
  lemma {:induction false} VoidRowKeeps(w: World, id: PaymentId)
    requires Inv(w) && id in w.payments && HoldPending(w.books, PsmIntent(id))
    ensures Inv(Book(w, L.Void(w.books, PsmIntent(id)).0))
  {
    var op := L.DoVoid(PsmIntent(id));
    assert At(w, id);
    ReleaseAgrees(w, w.payments[id]);
    StepOnlyFor(w.books, op, id);
    BookKeeps(w, L.Step(w.books, op), id);
  }

  lemma {:induction false} ReleaseKeeps(w: World, p: Payment)
    requires Inv(w) && p.id in w.payments && p.hold == PsmIntent(p.id)
    ensures var v := Release(w, p.hold);
            && Inv(v) && v.payments == w.payments && v.disputes == w.disputes && v.certs == w.certs
            && (Alive(w) ==> !HoldPending(v.books, p.hold))
            && (Agrees(w, p) ==> Agrees(v, p))
            && (Agrees(w, p) && DisputeAgrees(w, p) ==> DisputeAgrees(v, p))
  {
    hide L.Void, DisputeAgrees, Agrees, Inv, K.SameRecord;
    if HoldPending(w.books, p.hold) && Alive(w) {
      VoidReleases(w.books, p.id);
      VoidRowKeeps(w, p.id);
      if Agrees(w, p) {
        ReleaseAgrees(w, p);
        SameRecords(L.Void(w.books, p.hold).0, Release(w, p.hold).books, p.id);
        AgreesFrame(w.(books := L.Void(w.books, p.hold).0), Release(w, p.hold), p);
      }
    }
  }

  /** Opening a payment-side account touches no balance and no record. */
  lemma {:induction false} EnsureKeeps(w: World, a: AccountId)
    requires Inv(w) && PsmAccount(a)
    ensures var v := EnsureAccount(w, a);
            && Inv(v) && v.payments == w.payments && v.certs == w.certs && v.disputes == w.disputes
            && v.books.transfers == w.books.transfers && v.books.journal == w.books.journal
            && (Alive(v) ==> a in v.books.accounts)
            && (forall x :: x in w.books.accounts ==> x in v.books.accounts)
  {
    hide At, K.WellKept, K.SameRecord;
    var v := EnsureAccount(w, a);
    if a !in w.books.accounts && Alive(w) {
      K.OpenSingle(w.books, a, PSM_ACCOUNT);
      K.StepKeeps(w.books, L.DoCreate([L.AccountSpec(a, PSM_ACCOUNT)]));
      forall x ensures PlainAt(v.books, x) { assert PlainAt(w.books, x); }
      forall x ensures At(v, x) {
        SameRecords(w.books, v.books, x);
        AtFrame(w, v, x);
      }
    }
  }

  lemma {:induction false} SameRecords(b: L.State, c: L.State, x: PaymentId)
    requires c.transfers == b.transfers && c.journal == b.journal
    ensures SameBooksFor(b, c, x)
  {
  }

  // ---------------------------------------------------------------- the capture legs

  ghost predicate SameCaptureLegs(b: L.State, c: L.State, id: PaymentId)
  {
    && K.SameRecord(b, c, PsmIntent(id)) && K.SameRecord(b, c, PsmPost(id))
    && K.SameRecord(b, c, PsmFee(id)) && K.SameRecord(b, c, PsmCompensation(id))
  }

  /** A ledger call that names only the dispute legs leaves the capture legs alone. */
  lemma {:induction false} CaptureLegsStay(b: L.State, op: L.Op, id: PaymentId)
    requires forall t :: K.Names(op, t) ==> t == PsmDisputeHold(id) || t == PsmDisputeDebit(id)
    ensures SameCaptureLegs(b, L.Step(b, op), id)
  {
    hide L.Step, K.SameRecord;
    K.StepFrame(b, op, PsmIntent(id));
    K.StepFrame(b, op, PsmPost(id));
    K.StepFrame(b, op, PsmFee(id));
    K.StepFrame(b, op, PsmCompensation(id));
  }

  /** Whether record and ledger agree depends on the capture legs only. */
  lemma {:induction false} CaptureLegsDecide(w: World, books: L.State, p: Payment)
    requires Agrees(w, p) && SameCaptureLegs(w.books, books, p.id)
    ensures Agrees(w.(books := books), p)
  {
  }

  predicate Ready(b: L.State, a: AccountId)
  {
    a in b.accounts && b.accounts[a] == PSM_ACCOUNT
  }

  /** The accounts of an agreeing payment are open and uncapped. */
  lemma {:induction false} PayerReady(w: World, p: Payment)
    requires K.WellKept(w.books) && AccountsPlain(w.books) && Agrees(w, p)
    ensures Ready(w.books, Payer(p.tin)) && Ready(w.books, Collections)
  {
    assert K.ClosedAt(w.books, p.hold);
    assert PlainAt(w.books, Payer(p.tin)) && PlainAt(w.books, Collections);
  }

  /** The post of a pending hold lands in full. */
  lemma {:induction false} PostLeg(w: World, p: Payment)
    requires Agrees(w, p) && p.status == AwaitingPost && HoldPending(w.books, p.hold)
    requires Ready(w.books, Payer(p.tin)) && Ready(w.books, Collections)
    ensures var (books, r) := L.Post(w.books, p.hold, p.post, p.amount);
            && r.Ok? && PsmPost(p.id) in books.transfers && LegAgrees(books, PsmPost(p.id), HoldTransfer(p).(pending := false))
            && p.hold in books.transfers && books.transfers[p.hold] == HoldTransfer(p).(pending := false)
            && K.Moves(books.journal, p.hold) == 0
    ensures K.Disciplined(w.books, L.DoPost(p.hold, p.post, p.amount))
  {
  }

  /** Posting a consumed hold changes nothing, and succeeds exactly when the post is in place. */
  lemma {:induction false} PostAgain(w: World, p: Payment)
    requires Agrees(w, p) && p.status == AwaitingPost && !HoldPending(w.books, p.hold)
    ensures var (books, r) := L.Post(w.books, p.hold, p.post, p.amount);
            books == w.books && (r.Ok? <==> PsmPost(p.id) in w.books.transfers)
    ensures K.Disciplined(w.books, L.DoPost(p.hold, p.post, p.amount))
  {
  }

  /** Books that differ only by the landed post agree with the awaiting payment. */
  lemma {:induction false} PostFrame(w: World, books: L.State, p: Payment)
    requires Agrees(w, p) && DisputeAgrees(w, p) && p.status == AwaitingPost
    requires PsmPost(p.id) in books.transfers && LegAgrees(books, PsmPost(p.id), HoldTransfer(p).(pending := false))
    requires p.hold in books.transfers && books.transfers[p.hold] == HoldTransfer(p).(pending := false)
    requires K.Moves(books.journal, p.hold) == 0
    requires K.SameRecord(w.books, books, PsmFee(p.id)) && K.SameRecord(w.books, books, PsmCompensation(p.id))
    requires K.SameRecord(w.books, books, PsmDisputeHold(p.id)) && K.SameRecord(w.books, books, PsmDisputeDebit(p.id))
    ensures Agrees(w.(books := books), p) && DisputeAgrees(w.(books := books), p)
  {
  }

  /** Posting an awaiting payment either lands it or changes nothing. */
  lemma {:induction false} PostAgrees(w: World, p: Payment)
    requires Agrees(w, p) && DisputeAgrees(w, p) && p.status == AwaitingPost
    requires Ready(w.books, Payer(p.tin)) && Ready(w.books, Collections)
    ensures var (books, r) := L.Post(w.books, p.hold, p.post, p.amount);
            var v := w.(books := books);
            && K.Disciplined(w.books, L.DoPost(p.hold, p.post, p.amount))
            && Agrees(v, p) && DisputeAgrees(v, p)
            && (r.Ok? <==> Landed(v, p.id)) && (r.Err? ==> books == w.books)
            && (HoldPending(w.books, p.hold) ==> r.Ok?)
  {
    hide L.Post, DisputeAgrees, StatusAgrees, LegAgrees, K.Disciplined, K.SameRecord;
    if HoldPending(w.books, p.hold) {
      PostLeg(w, p);
      PostOthers(w, p);
      PostFrame(w, L.Post(w.books, p.hold, p.post, p.amount).0, p);
    } else {
      PostAgain(w, p);
      assert w.(books := w.books) == w;
    }
  }

  lemma {:induction false} PostOthers(w: World, p: Payment)
    requires Agrees(w, p) && p.status == AwaitingPost
    ensures var books := L.Post(w.books, p.hold, p.post, p.amount).0;
            && K.SameRecord(w.books, books, PsmFee(p.id)) && K.SameRecord(w.books, books, PsmCompensation(p.id))
            && K.SameRecord(w.books, books, PsmDisputeHold(p.id)) && K.SameRecord(w.books, books, PsmDisputeDebit(p.id))
  {
    hide K.SameRecord;
    var op := L.DoPost(p.hold, p.post, p.amount);
    K.StepFrame(w.books, op, PsmFee(p.id));
    K.StepFrame(w.books, op, PsmCompensation(p.id));
    K.StepFrame(w.books, op, PsmDisputeHold(p.id));
    K.StepFrame(w.books, op, PsmDisputeDebit(p.id));
  }

  /** The fee leg: a new one, or one already in place. */
  lemma {:induction false} FeeLeg(w: World, p: Payment)
    requires LegAgrees(w.books, PsmFee(p.id), FeeTransfer(p)) && p.fee > 0
    requires Ready(w.books, Collections) && Ready(w.books, FeeIncome)
    ensures var (books, r) := L.Direct(w.books, PsmFee(p.id), FeeTransfer(p));
            r.Ok? && LegAgrees(books, PsmFee(p.id), FeeTransfer(p)) && PsmFee(p.id) in books.transfers
  {
  }

  lemma {:induction false} FeeAgrees(w: World, p: Payment)
    requires Agrees(w, p) && DisputeAgrees(w, p) && p.status == AwaitingPost && Landed(w, p.id) && p.fee > 0
    requires Ready(w.books, Collections) && Ready(w.books, FeeIncome)
    ensures var (books, r) := L.Direct(w.books, PsmFee(p.id), FeeTransfer(p));
            var v := w.(books := books);
            Agrees(v, p) && DisputeAgrees(v, p) && r.Ok? && Landed(v, p.id) && FeePosted(v, p.id)
  {
    var op := L.DoDirect(PsmFee(p.id), FeeTransfer(p));
    var books := L.Step(w.books, op);
    FeeLeg(w, p);
    K.StepFrame(w.books, op, PsmIntent(p.id));
    K.StepFrame(w.books, op, PsmPost(p.id));
    K.StepFrame(w.books, op, PsmCompensation(p.id));
    K.StepFrame(w.books, op, PsmDisputeHold(p.id));
    K.StepFrame(w.books, op, PsmDisputeDebit(p.id));
    FeeFrame(w, books, p);
  }

  /** Books that differ only by the fee leg agree with the awaiting payment. */
  lemma {:induction false} FeeFrame(w: World, books: L.State, p: Payment)
    requires Agrees(w, p) && DisputeAgrees(w, p) && p.status == AwaitingPost && Landed(w, p.id) && p.fee > 0
    requires LegAgrees(books, PsmFee(p.id), FeeTransfer(p)) && PsmFee(p.id) in books.transfers
    requires K.SameRecord(w.books, books, PsmIntent(p.id)) && K.SameRecord(w.books, books, PsmPost(p.id))
    requires K.SameRecord(w.books, books, PsmCompensation(p.id))
    requires K.SameRecord(w.books, books, PsmDisputeHold(p.id)) && K.SameRecord(w.books, books, PsmDisputeDebit(p.id))
    ensures Agrees(w.(books := books), p) && DisputeAgrees(w.(books := books), p)
    ensures PsmPost(p.id) in books.transfers
  {
  }

  /** The reversal of a landed post: a new leg, or one already in place. */
  lemma {:induction false} ReversalLeg(w: World, p: Payment)
    requires LegAgrees(w.books, PsmCompensation(p.id), ReversalTransfer(p)) && p.amount > 0
    requires Ready(w.books, Payer(p.tin)) && Ready(w.books, Collections)
    ensures var books := L.Direct(w.books, PsmCompensation(p.id), ReversalTransfer(p)).0;
            LegAgrees(books, PsmCompensation(p.id), ReversalTransfer(p)) && PsmCompensation(p.id) in books.transfers
  {
  }

  /** Reversing a landed post makes the payment agree as compensated. */
  lemma {:induction false} ReversalAgrees(w: World, p: Payment)
    requires Agrees(w, p) && p.status == AwaitingPost && Landed(w, p.id)
    requires Ready(w.books, Payer(p.tin)) && Ready(w.books, Collections)
    ensures var (books, r) := L.Direct(w.books, PsmCompensation(p.id), ReversalTransfer(p));
            var v := w.(books := books);
            var q := p.(status := Compensated);
            && Agrees(v, q) && (DisputeAgrees(w, q) ==> DisputeAgrees(v, q)) && Reversed(v, p.id)
            && !HoldPending(books, p.hold)
  {
    var op := L.DoDirect(PsmCompensation(p.id), ReversalTransfer(p));
    ReversalLeg(w, p);
    K.StepFrame(w.books, op, PsmIntent(p.id));
    K.StepFrame(w.books, op, PsmPost(p.id));
    K.StepFrame(w.books, op, PsmFee(p.id));
    K.StepFrame(w.books, op, PsmDisputeHold(p.id));
    K.StepFrame(w.books, op, PsmDisputeDebit(p.id));
    CompensatedAgrees(w, L.Step(w.books, op), p);
  }

  /** Books that differ only by the reversal leg agree with the payment as compensated. */
  lemma {:induction false} CompensatedAgrees(w: World, books: L.State, p: Payment)
    requires Agrees(w, p) && p.status == AwaitingPost && Landed(w, p.id)
    requires LegAgrees(books, PsmCompensation(p.id), ReversalTransfer(p)) && PsmCompensation(p.id) in books.transfers
    requires K.SameRecord(w.books, books, PsmIntent(p.id)) && K.SameRecord(w.books, books, PsmPost(p.id))
    requires K.SameRecord(w.books, books, PsmFee(p.id))
    requires K.SameRecord(w.books, books, PsmDisputeHold(p.id)) && K.SameRecord(w.books, books, PsmDisputeDebit(p.id))
    ensures var v := w.(books := books);
            var q := p.(status := Compensated);
            && Agrees(v, q) && (DisputeAgrees(w, q) ==> DisputeAgrees(v, q)) && !HoldPending(books, p.hold)
  {
  }

  /** `p` is the stored record and awaits its post. */
  predicate Awaiting(w: World, p: Payment)
  {
    p.id in w.payments && w.payments[p.id] == p && p.status == AwaitingPost
  }

  /** Ledger calls for a stored record that agrees with them keep the invariant. */
  lemma {:induction false} RebookKeeps(w: World, books: L.State, p: Payment)
    requires Inv(w) && p.id in w.payments && w.payments[p.id] == p && OnlyFor(w.books, books, p.id)
    requires Agrees(w.(books := books), p) && DisputeAgrees(w.(books := books), p)
    ensures Inv(Book(w, books))
  {
    BookKeeps(w, books, p.id);
  }

  lemma {:induction false} PostBooks(w: World, p: Payment)
    requires Inv(w) && Awaiting(w, p)
    ensures var op := L.DoPost(p.hold, p.post, p.amount);
            var books := L.Step(w.books, op);
            && OnlyFor(w.books, books, p.id)
            && Agrees(w.(books := books), p) && DisputeAgrees(w.(books := books), p)
            && (L.Post(w.books, p.hold, p.post, p.amount).1.Ok? <==> PsmPost(p.id) in books.transfers)
  {
    assert At(w, p.id);
    PayerReady(w, p);
    PostAgrees(w, p);
    StepOnlyFor(w.books, L.DoPost(p.hold, p.post, p.amount), p.id);
  }

  lemma {:induction false} PostKeeps(w: World, p: Payment)
    requires Inv(w) && Awaiting(w, p)
    ensures var (books, r) := L.Post(w.books, p.hold, p.post, p.amount);
            var v := Book(w, books);
            Inv(v) && Awaiting(v, p) && (Alive(w) ==> (r.Ok? <==> Landed(v, p.id)))
  {
    PostBooks(w, p);
    RebookKeeps(w, L.Step(w.books, L.DoPost(p.hold, p.post, p.amount)), p);
  }

  lemma {:induction false} FeeBooked(w: World, p: Payment)
    requires Inv(w) && Awaiting(w, p) && Landed(w, p.id) && p.fee > 0 && FeeIncome in w.books.accounts && Alive(w)
    ensures var (books, r) := L.Direct(w.books, PsmFee(p.id), FeeTransfer(p));
            Inv(Book(w, books)) && r.Ok? && PsmPost(p.id) in books.transfers && PsmFee(p.id) in books.transfers
  {
    var op := L.DoDirect(PsmFee(p.id), FeeTransfer(p));
    assert At(w, p.id);
    PayerReady(w, p);
    assert PlainAt(w.books, FeeIncome);
    FeeAgrees(w, p);
    StepOnlyFor(w.books, op, p.id);
    RebookKeeps(w, L.Step(w.books, op), p);
  }

  /** While the process lives the fee leg of a landed payment succeeds. */
  lemma {:induction false} FeeKeeps(w: World, p: Payment)
    requires Inv(w) && Awaiting(w, p) && Landed(w, p.id)
    ensures var (v, ok) := PostFeeLeg(w, p);
            && Inv(v) && Awaiting(v, p) && v.certs == w.certs && Landed(v, p.id)
            && (Alive(v) ==> ok && (FeePosted(v, p.id) <==> p.fee > 0))
  {
    hide L.Direct, Opened, LegAgrees, DisputeAgreesOn, K.WellKept;
    if p.fee > 0 {
      EnsureKeeps(w, Collections);
      var w1 := EnsureAccount(w, Collections);
      EnsureKeeps(w1, FeeIncome);
      var w2 := EnsureAccount(w1, FeeIncome);
      if Alive(w2) { FeeBooked(w2, p); }
    } else {
      assert At(w, p.id);
    }
  }

  /** Issuing a certificate for a landed post certifies that payment and no other. */
  lemma {:induction false} CertifiedAfter(certs: set<Cert>, c: Cert, x: PaymentId)
    ensures Certified(certs + {c}, x) <==> Certified(certs, x) || x == c.pay
  {
    if Certified(certs, x) { var year :| Cert(year, x) in certs; assert Cert(year, x) in certs + {c}; }
    if x == c.pay { assert Cert(c.year, x) in certs + {c}; }
  }

  lemma {:induction false} CertifyKeeps(w: World, v: World, p: Payment, c: Cert)
    requires Inv(w) && Awaiting(w, p) && Landed(w, p.id) && c.pay == p.id
    requires v == w.(certs := w.certs + {c}, life := v.life)
    ensures Inv(v) && HasCert(v, p.id)
  {
    assert At(w, p.id);
    forall x ensures Certified(v.certs, x) <==> Certified(w.certs, x) || x == p.id { CertifiedAfter(w.certs, c, x); }
    assert v.payments == w.payments[p.id := p];
    OnlyForSelf(w.books, p.id);
    RowKeeps(w, v, p);
  }

  lemma {:induction false} IssueKeeps(w: World, p: Payment, env: Env)
    requires Inv(w) && Awaiting(w, p) && Landed(w, p.id)
    ensures var v := Issue(w, p, env);
            && Inv(v) && Awaiting(v, p) && v.books == w.books && v.disputes == w.disputes
            && (Alive(w) && !IssueFails(w, p, env) ==> HasCert(v, p.id))
  {
    var v := Issue(w, p, env);
    var c := Cert(env.year, p.id);
    if v.certs == w.certs {
      SpendKeeps(w, v.life);
      if c in w.certs { assert HasCert(v, p.id); }
    } else {
      CertifyKeeps(w, v, p, c);
    }
  }

  /** What compensateCapture may be called with: the stored record, or its awaiting form that could not be stored. */
  ghost predicate Compensable(w: World, p: Payment)
  {
    && p.id in w.payments && p.status == AwaitingPost
    && Agrees(w, p) && DisputeAgrees(w, p.(status := Compensated))
    && SameLevy(p, w.payments[p.id]) && Live(w.payments[p.id].status)
    && w.payments[p.id].status !in {Disputed, ChargedBack}
  }

  lemma {:induction false} ReversedBooksAgree(w: World, p: Payment)
    requires Inv(w) && Compensable(w, p) && PostLanded(w.books, p)
    ensures var v := w.(books := CompensatedBooks(w.books, p));
            var q := p.(status := Compensated);
            OnlyFor(w.books, v.books, p.id) && Agrees(v, q) && DisputeAgrees(v, q)
  {
    PayerReady(w, p);
    ReversalAgrees(w, p);
    StepOnlyFor(w.books, L.DoDirect(PsmCompensation(p.id), ReversalTransfer(p)), p.id);
  }

  lemma {:induction false} ReleasedBooksAgree(w: World, p: Payment)
    requires Inv(w) && Compensable(w, p) && !PostLanded(w.books, p)
    ensures var v := w.(books := CompensatedBooks(w.books, p));
            var q := p.(status := Compensated);
            OnlyFor(w.books, v.books, p.id) && Agrees(v, q) && DisputeAgrees(v, q)
  {
    hide L.Void, DisputeAgrees, LegAgrees, Inv, OnlyFor;
    var q := p.(status := Compensated);
    if HoldPending(w.books, p.hold) {
      var books := L.Void(w.books, p.hold).0;
      ReleaseAgrees(w, p);
      ReleasedDispute(w, books, q);
      ReleaseOnlyFor(w, p.id);
      AsCompensated(w.(books := books), p);
    } else {
      assert w.(books := w.books) == w;
      AsCompensated(w, p);
      NothingOnlyFor(w, p.id);
    }
  }

  lemma {:induction false} ReleaseOnlyFor(w: World, id: PaymentId)
    requires Inv(w)
    ensures OnlyFor(w.books, L.Void(w.books, PsmIntent(id)).0, id)
  {
    hide At, OnlyFor, L.Void;
    StepOnlyFor(w.books, L.DoVoid(PsmIntent(id)), id);
  }

  lemma {:induction false} NothingOnlyFor(w: World, id: PaymentId)
    requires Inv(w)
    ensures OnlyFor(w.books, w.books, id)
  {
    OnlyForSelf(w.books, id);
  }

  /** Without a landed post and with the hold released, an awaiting payment agrees as compensated. */
  lemma {:induction false} AsCompensated(w: World, p: Payment)
    requires Agrees(w, p) && p.status == AwaitingPost && !HoldPending(w.books, p.hold) && !PostLanded(w.books, p)
    ensures Agrees(w, p.(status := Compensated))
  {
  }

  lemma {:induction false} CompensatedBooksAgree(w: World, p: Payment)
    requires Inv(w) && Compensable(w, p)
    ensures var v := w.(books := CompensatedBooks(w.books, p));
            var q := p.(status := Compensated);
            OnlyFor(w.books, v.books, p.id) && Agrees(v, q) && DisputeAgrees(v, q)
  {
    if PostLanded(w.books, p) { ReversedBooksAgree(w, p); } else { ReleasedBooksAgree(w, p); }
  }

  /** The clock reading in a record says nothing about the ledger. */
  lemma {:induction false} AgreesAnyTime(w: World, v: World, p: Payment, now: int)
    requires v.books == w.books && v.certs == w.certs && v.disputes == w.disputes && Agrees(w, p) && DisputeAgrees(w, p)
    ensures Agrees(v, p.(updatedAt := now)) && DisputeAgrees(v, p.(updatedAt := now))
  {
  }

  /** A row written together with ledger calls for that payment, when they agree. */
  lemma {:induction false} WrittenKeeps(w: World, v: World, q: Payment, books: L.State)
    requires Inv(w) && OnlyFor(w.books, books, q.id) && UniqueLive(w.payments[q.id := q])
    requires Agrees(w.(books := books), q) && DisputeAgrees(w.(books := books), q)
    requires v == w.(payments := w.payments[q.id := q], books := books, comps := v.comps, life := v.life)
    ensures Inv(v)
  {
    AgreesAnyTime(w.(books := books), v, q, q.updatedAt);
    assert q.(updatedAt := q.updatedAt) == q;
    RowKeeps(w, v, q);
  }

  lemma {:induction false} InvUnique(w: World)
    requires Inv(w)
    ensures UniqueLive(w.payments)
  {
  }

  lemma {:induction false} CompensateKeeps(w: World, p: Payment, env: Env)
    requires Inv(w) && Compensable(w, p) && !env.compFault
    ensures Inv(Compensate(w, p, env))
  {
    hide Inv, Agrees, DisputeAgrees, CompensatedBooks, OnlyFor;
    InvUnique(w);
    if Alive(w) {
      var q := p.(status := Compensated, updatedAt := env.now);
      var books := CompensatedBooks(w.books, p);
      CompensatedBooksAgree(w, p);
      AgreesAnyTime(w.(books := books), w.(books := books), p.(status := Compensated), env.now);
      UniqueAfter(w.payments, q);
      WrittenKeeps(w, Compensate(w, p, env), q, books);
    }
  }

  /** The stored row of a payment whose post has not landed agrees with the compensated books. */
  lemma {:induction false} StoredAgrees(w: World, p: Payment)
    requires Inv(w) && Compensable(w, p) && !Landed(w, p.id)
    ensures var v := w.(books := CompensatedBooks(w.books, p));
            Agrees(v, w.payments[p.id]) && DisputeAgrees(v, w.payments[p.id]) && w.payments[p.id].id == p.id
  {
    hide L.Void, DisputeAgrees, LegAgrees, HoldReleased, StatusAgrees, K.WellKept, CompensatedBooks;
    assert At(w, p.id);
    UnlandedBooks(w, p);
    if HoldPending(w.books, p.hold) { ReleaseAgrees(w, w.payments[p.id]); } else { assert w.(books := w.books) == w; }
  }

  /** Without a landed post a compensation only releases the hold. */
  lemma {:induction false} UnlandedBooks(w: World, p: Payment)
    requires Agrees(w, p) && p.status == AwaitingPost && !Landed(w, p.id)
    ensures CompensatedBooks(w.books, p) == if HoldPending(w.books, p.hold) then L.Void(w.books, p.hold).0 else w.books
  {
    hide L.Void, L.Direct;
  }

  /** A lost write of a compensation without a landed post leaves a releasable record behind. */
  lemma {:induction false} CompensateUnsavedKeeps(w: World, p: Payment, env: Env)
    requires Inv(w) && Compensable(w, p) && env.compFault && !Landed(w, p.id)
    ensures Inv(Compensate(w, p, env))
  {
    if Alive(w) {
      var stored := w.payments[p.id];
      StoredAgrees(w, p);
      CompensatedBooksAgree(w, p);
      assert w.payments == w.payments[p.id := stored];
      WrittenKeeps(w, Compensate(w, p, env), stored, CompensatedBooks(w.books, p));
    }
  }

  /**
   The exact condition: with a live process a compensation keeps status and
   ledger in agreement unless it reversed a landed post and its own status
   write was lost.
   */
  lemma {:induction false} CompensateKeepsIff(w: World, p: Payment, env: Env)
    requires Inv(w) && Compensable(w, p) && Alive(w) && (Landed(w, p.id) ==> w.payments[p.id] == p)
    ensures Inv(Compensate(w, p, env)) <==> !(env.compFault && Landed(w, p.id))
  {
    hide At, Compensate, Compensable;
    if !env.compFault {
      CompensateKeeps(w, p, env);
    } else if !Landed(w, p.id) {
      CompensateUnsavedKeeps(w, p, env);
    } else {
      LostReversal(w, p, env);
    }
  }

  lemma {:induction false} LostReversal(w: World, p: Payment, env: Env)
    requires Inv(w) && Compensable(w, p) && Alive(w) && Landed(w, p.id) && w.payments[p.id] == p && env.compFault
    ensures !At(Compensate(w, p, env), p.id)
  {
    hide K.WellKept, DisputeAgreesOn;
    var v := Compensate(w, p, env);
    PayerReady(w, p);
    ReversalAgrees(w, p);
    assert Reversed(v, p.id) && v.payments[p.id] == p;
  }

  lemma {:induction false} AfterFeeKeeps(w: World, feeOk: bool, p: Payment, env: Env)
    requires Inv(w) && Awaiting(w, p) && Landed(w, p.id)
    requires !(env.compFault && IssueFails(w, p, env) && Lives(w.life, 2))
    requires Alive(w) ==> feeOk && (FeePosted(w, p.id) <==> p.fee > 0)
    ensures Inv(AfterFee(w, feeOk, p, env))
  {
    var w1 := Issue(w, p, env);
    IssueKeeps(w, p, env);
    if !Alive(w) {
      assert AfterFee(w, feeOk, p, env) == w;
    } else if !Alive(w1) {
      assert AfterFee(w, feeOk, p, env) == w1;
    } else if IssueFails(w, p, env) {
      CompensateSome(w1, p, env);
    } else {
      assert At(w1, p.id);
      SaveKeeps(w1, p.(status := Captured, updatedAt := env.now), env.finalFault);
    }
  }

  /** How many durable calls the fee leg takes: what is not open yet is opened first. */
  function FeeCalls(b: L.State, p: Payment): nat
  {
    if p.fee == 0 then 0
    else 1 + (if Collections in b.accounts then 0 else 1) + (if FeeIncome in b.accounts then 0 else 1)
  }

  /**
   After `before` more calls, finishing the payment lands its post, fails to certify it,
   lives to reverse the post, and loses the record of that.
   */
  predicate Loses(w: World, p: Payment, env: Env, before: nat)
  {
    && env.compFault && IssueFails(w, p, env) && L.Post(w.books, p.hold, p.post, p.amount).1.Ok?
    && Lives(w.life, before + 3 + FeeCalls(w.books, p))
  }

  /** Capture's tail and resumeCapture, cut off anywhere, keep the invariant. */
  lemma {:induction false} FinishKeeps(w: World, p: Payment, env: Env)
    requires Inv(w) && Awaiting(w, p) && !Loses(w, p, env, 0)
    ensures Inv(Finish(w, p, env))
  {
    hide Inv, L.Post, PostFeeLeg, Compensate, AfterFee, FeeCalls;
    var (books, r) := L.Post(w.books, p.hold, p.post, p.amount);
    var w1 := Book(w, books);
    PostKeeps(w, p);
    if !Alive(w) {
      DeadAfterPost(w1, r.Ok?, p, env);
    } else if r.Err? {
      CompensateSome(w1, p, env);
    } else {
      FeeKeeps(w1, p);
      FeeLife(w1, p);
      PostOpensNothing(w.books, p);
      AfterFeeKeeps(PostFeeLeg(w1, p).0, PostFeeLeg(w1, p).1, p, env);
    }
  }

  lemma {:induction false} PostOpensNothing(b: L.State, p: Payment)
    ensures FeeCalls(L.Post(b, p.hold, p.post, p.amount).0, p) == FeeCalls(b, p)
  {
    assert L.Post(b, p.hold, p.post, p.amount).0.accounts == b.accounts;
  }

  /** The exact condition, at any crash point: finishing keeps the invariant unless it loses a compensation. */
  lemma {:induction false} FinishKeepsIff(w: World, p: Payment, env: Env)
    requires Inv(w) && Awaiting(w, p)
    ensures Inv(Finish(w, p, env)) <==> !Loses(w, p, env, 0)
  {
    hide Inv, L.Post, PostFeeLeg, Compensate, FeeCalls;
    if !Loses(w, p, env, 0) {
      FinishKeeps(w, p, env);
    } else {
      var w1 := Book(w, L.Post(w.books, p.hold, p.post, p.amount).0);
      PostKeeps(w, p);
      FeeKeeps(w1, p);
      var w2 := PostFeeLeg(w1, p).0;
      FeeLife(w1, p);
      PostOpensNothing(w.books, p);
      var w3 := Issue(w2, p, env);
      IssueKeeps(w2, p, env);
      assert Lives(w2.life, 2) && Alive(w3);
      assert Finish(w, p, env) == Compensate(w3, p, env);
      AwaitingCompensable(w3, p);
      CompensateKeepsIff(w3, p, env);
    }
  }

  /** The fee leg spends its calls. */
  lemma {:induction false} FeeLife(w: World, p: Payment)
    ensures forall n: nat :: n > 0 ==> (Lives(PostFeeLeg(w, p).0.life, n) <==> Lives(w.life, n + FeeCalls(w.books, p)))
  {
    hide L.Direct, Opened;
    if p.fee > 0 {
      EnsureLife(w, Collections);
      EnsureLife(EnsureAccount(w, Collections), FeeIncome);
    }
  }

  lemma {:induction false} EnsureLife(w: World, a: AccountId)
    requires a in {Collections, FeeIncome}
    ensures var v := EnsureAccount(w, a);
            && (forall n: nat :: n > 0 ==> (Lives(v.life, n) <==> Lives(w.life, if a in w.books.accounts then n else n + 1)))
            && (a == Collections ==> (FeeIncome in v.books.accounts <==> FeeIncome in w.books.accounts))
  {
    if a !in w.books.accounts { K.OpenSingle(w.books, a, PSM_ACCOUNT); }
  }

  lemma {:induction false} FeeForever(w: World, p: Payment)
    requires w.life == Forever
    ensures PostFeeLeg(w, p).0.life == Forever
  {
    hide L.Direct, Opened;
  }

  lemma {:induction false} AwaitingCompensable(w: World, p: Payment)
    requires Inv(w) && Awaiting(w, p)
    ensures Compensable(w, p)
  {
    assert At(w, p.id);
  }

  /** Nothing a dead process does is durable. */
  lemma {:induction false} DeadAfterPost(w: World, posted: bool, p: Payment, env: Env)
    requires !Alive(w)
    ensures AfterPost(w, posted, p, env) == w
  {
    assert PostFeeLeg(w, p).0 == w;
  }

  lemma {:induction false} CompensateSome(w: World, p: Payment, env: Env)
    requires Inv(w) && Awaiting(w, p) && (env.compFault ==> !Landed(w, p.id))
    ensures Inv(Compensate(w, p, env))
  {
    AwaitingCompensable(w, p);
    if env.compFault { CompensateUnsavedKeeps(w, p, env); } else { CompensateKeeps(w, p, env); }
  }
}
