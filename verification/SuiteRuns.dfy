/**
 Money coming into the suite: once an account is funded, a float movement out of it lands,
 whatever the other services do in between; and a run from the empty ledger in which it does.
 */
module SuiteRuns {
  import opened Prelude
  import opened Ids
  import L = Ledger
  import K = LedgerLaws
  import opened SharedLedger
  import opened Suites
  import P = Payments
  import PL = PaymentLaws
  import PR = PaymentRuns
  import PT = PaymentTheorems
  import PC = PaymentRecovery
  import F = Floats
  import FL = FloatLaws
  import C = Commissions
  import CL = CommissionLaws
  import N = Nip
  import NL = NipLaws
  import NO = NipOutcomes
  import NR = NipReuse
  import FO = FloatOutcomes
  import LO = LedgerOutcomes

  // ---------------------------------------------------------------- a funded movement lands

  /** The float account a movement takes money from. */
  function Source(m: F.Movement): AccountId
  {
    match m.kind
    case Topup => FloatTreasury
    case Debit => AgentFloat(m.agent)
  }

  /** The movement is new, and what is posted to its source and not spent or held covers it. */
  predicate Funded(w: F.World, m: F.Movement)
  {
    && m.status == F.Pending && m.reference != "" && m.amount > 0
    && F.KeyOf(m) !in w.movements && F.HoldId(m) !in w.books.transfers
    && (m.agent in w.enlisted ==> AgentFloat(m.agent) in w.books.accounts)
    && Source(m) in w.books.accounts
    && var b := L.BalanceOf(w.books, Source(m));
       b.debitsPosted + b.debitsPending + m.amount <= b.creditsPosted
  }

  function Moved(m: F.Movement): F.Op
  {
    F.DoMove(m.kind, m.agent, m.amount, m.reference, F.NO_FAULTS)
  }

  /** Opening a float account leaves the movement funded. */
  lemma {:induction false} OpenFunded(w: F.World, a: AccountId, m: F.Movement)
    requires FL.Inv(w, true) && w.life == Forever && Funded(w, m) && FloatAccount(a)
    ensures var v := F.Do(w, F.OpenAccount(a));
            FL.Inv(v, true) && v == w.(books := v.books) && Funded(v, m) && a in v.books.accounts
            && forall b :: b in w.books.accounts ==> b in v.books.accounts
  {
    hide FL.Inv;
    FL.OpenKeeps(w, a, true);
    if a !in w.books.accounts {
      K.OpenSingle(w.books, a, F.FLOAT_ACCOUNT);
    } else {
      var batch := [L.AccountSpec(a, F.FLOAT_ACCOUNT)];
      assert batch[0].id == a;
      assert L.RefusedBy(w.books.accounts, batch).Some?;
    }
  }

  lemma {:induction false} FloatFlags(w: F.World, a: AccountId)
    requires FL.Inv(w, true) && FloatAccount(a) && a in w.books.accounts
    ensures w.books.accounts[a] == F.FLOAT_ACCOUNT
  {
    assert FL.CapHeld(w.books, a);
  }

  /** With both accounts open, the hold of a funded movement is accepted. */
  lemma {:induction false} FundedHold(b: L.State, m: F.Movement)
    requires var t := F.HoldTransfer(m);
             && t.debit in b.accounts && t.credit in b.accounts && m.amount > 0 && F.HoldId(m) !in b.transfers
             && b.accounts[t.debit] == F.FLOAT_ACCOUNT && b.accounts[t.credit] == F.FLOAT_ACCOUNT
             && L.BalanceOf(b, t.debit).debitsPosted + L.BalanceOf(b, t.debit).debitsPending + m.amount
                <= L.BalanceOf(b, t.debit).creditsPosted
             && L.BalanceOf(b, t.credit).debitsPosted <= L.BalanceOf(b, t.credit).creditsPosted
    ensures L.Hold(b, F.HoldId(m), F.HoldTransfer(m)).1.Ok?
  {
  }

  /** Posted debits of an open float account stay within its credits. */
  lemma {:induction false} FloatWithin(w: F.World, a: AccountId)
    requires FL.Inv(w, true) && FloatAccount(a) && a in w.books.accounts
    ensures L.BalanceOf(w.books, a).debitsPosted <= L.BalanceOf(w.books, a).creditsPosted
  {
    FloatFlags(w, a);
    assert K.CapAt(w.books, a);
  }

  /** A funded movement, with nothing failing, is recorded as posted and has landed. */
  lemma {:induction false} FundedLands(w: F.World, m: F.Movement)
    requires FL.Inv(w, true) && w.life == Forever && Funded(w, m)
    ensures var v := F.Step(w, Moved(m), Forever);
            && F.KeyOf(m) in v.movements && v.movements[F.KeyOf(m)] == m.(status := F.Posted)
            && FL.Landed(v.books, m.(status := F.Posted))
  {
    hide FL.Inv, Funded, F.Place, FL.Landed, L.Hold, F.Do;
    var w1, w2 := Opened(w, m);
    FundedFacts(w2, m);
    FloatFlags(w2, F.HoldTransfer(m).debit);
    FloatFlags(w2, F.HoldTransfer(m).credit);
    FloatWithin(w2, F.HoldTransfer(m).credit);
    FundedHold(w2.books, m);
    FL.PlacePosts(w2, m, F.NO_FAULTS, true);
    MoveIsPlace(w, m);
  }

  lemma {:induction false} FundedFacts(w: F.World, m: F.Movement)
    requires Funded(w, m)
    ensures m.status == F.Pending && m.amount > 0 && F.KeyOf(m) !in w.movements && F.HoldId(m) !in w.books.transfers
    ensures var b := L.BalanceOf(w.books, Source(m)); b.debitsPosted + b.debitsPending + m.amount <= b.creditsPosted
  {
  }

  /** The accounts a movement is between are opened first. */
  lemma {:induction false} Opened(w: F.World, m: F.Movement) returns (w1: F.World, w2: F.World)
    requires FL.Inv(w, true) && w.life == Forever && Funded(w, m)
    ensures w1 == F.Open(w, m.agent, false) && w2 == F.EnsureTreasury(w1)
    ensures FL.Inv(w2, true) && w2.life == Forever && Funded(w2, m)
    ensures F.HoldTransfer(m).debit in w2.books.accounts && F.HoldTransfer(m).credit in w2.books.accounts
  {
    hide FL.Inv, F.Do;
    w1 := F.Open(w, m.agent, false);
    FL.OpenFloatKeeps(w, m.agent, false, true);
    if m.agent !in w.enlisted { OpenFunded(w, AgentFloat(m.agent), m); }
    w2 := F.EnsureTreasury(w1);
    if FloatTreasury !in w1.books.accounts { OpenFunded(w1, FloatTreasury, m); }
  }

  lemma {:induction false} MoveIsPlace(w: F.World, m: F.Movement)
    requires w.life == Forever && Funded(w, m)
    ensures F.Step(w, Moved(m), Forever) == F.Place(F.EnsureTreasury(F.Open(w, m.agent, false)), m, F.NO_FAULTS).0
  {
    hide F.Place, F.Do;
    assert w.(life := Forever) == w;
    assert F.Movement(m.kind, m.reference, m.agent, m.amount, F.Pending) == m;
  }

  // ---------------------------------------------------------------- whatever the others do in between

  predicate OthersCall(c: Call)
  {
    !c.op.AtFloat? && !c.op.AtLedger?
  }

  lemma {:induction false} SparedFunded(me: Service, w: F.World, b: L.State, m: F.Movement)
    requires Funded(w, m) && Spares(me, w.books, b) && me != FloatSide
    ensures Funded(w.(books := b), m)
  {
    hide K.SameRecord, Apart;
    assert SparesId(me, w.books, b, F.HoldId(m)) && SparesAccount(me, w.books, b, Source(m));
    assert SparesAccount(me, w.books, b, AgentFloat(m.agent));
    SameStays(w.books, b, F.HoldId(m));
  }

  lemma {:induction false} SameStays(a: L.State, b: L.State, id: TransferId)
    ensures K.SameRecord(a, b, id) ==> (id in b.transfers <==> id in a.transfers)
  {
  }

  /** No call of another service spends what funds a movement. */
  lemma {:induction false} CallFunded(s: Suite, c: Call, owed: map<C.Key, CL.Due>, m: F.Movement)
    requires Inv(s, owed) && Admissible(s, c.op, c.life, owed) && OthersCall(c) && Funded(s.float, m)
    ensures Funded(Step(s, c.op, c.life).float, m)
  {
    hide PL.Inv, FL.Inv, CL.Inv, NL.Inv, Apart, Spares, P.Step, C.Step, N.Step, PT.Admissible, CL.Admissible, NL.Admissible, Funded;
    match c.op
    case AtPayments(op) =>
      PaymentsSpare(s.pay, op, c.life);
      SparedFunded(PaymentSide, s.float, P.Step(s.pay, op, c.life).books, m);
    case AtCommissions(op) =>
      CommissionsSpare(s.comm, op, c.life);
      SparedFunded(CommissionSide, s.float, C.Step(s.comm, op, c.life).books, m);
    case AtNip(op) =>
      NipSpares(s.nip, op, c.life);
      SparedFunded(NipSide, s.float, N.Step(s.nip, op, c.life).books, m);
  }

  /** From any kept state in which a movement is funded, through any calls of the other services. */
  lemma {:induction false} RunFunded(s: Suite, calls: seq<Call>, owed: map<C.Key, CL.Due>, m: F.Movement)
    requires Inv(s, owed) && AdmissibleRun(s, calls, owed) && Funded(s.float, m)
    requires forall i :: 0 <= i < |calls| ==> OthersCall(calls[i])
    ensures Inv(Run(s, calls), owed) && Funded(Run(s, calls).float, m)
  {
    hide Inv, Admissible, Step, Funded;
    if calls != [] {
      var n := |calls| - 1;
      assert forall i :: 0 <= i < n ==> calls[..n][i] == calls[i];
      RunFunded(s, calls[..n], owed, m);
      CallFunded(Run(s, calls[..n]), calls[n], owed, m);
      StepKeeps(Run(s, calls[..n]), calls[n], owed);
    }
  }

  /**
   A movement that is funded lands: after any calls of payments, commissions and NIP
   transfers, cut off anywhere, an undisturbed top-up or debit is recorded as posted and
   its money has moved once, in full: to the agent or from the agent.
   */
  lemma {:induction false} FundedMovementLands(s: Suite, calls: seq<Call>, owed: map<C.Key, CL.Due>, m: F.Movement)
    requires Inv(s, owed) && AdmissibleRun(s, calls, owed) && Funded(s.float, m)
    requires forall i :: 0 <= i < |calls| ==> OthersCall(calls[i])
    ensures var u := Run(s, calls);
            var v := Step(u, AtFloat(Moved(m)), Forever);
            && Admissible(u, AtFloat(Moved(m)), Forever, owed) && Inv(v, owed)
            && F.KeyOf(m) in v.float.movements && v.float.movements[F.KeyOf(m)] == m.(status := F.Posted)
            && FL.Landed(v.float.books, m.(status := F.Posted))
            && (m.kind == Topup ==> K.Logged(v.float.books.journal, L.Moved(F.PostId(m), F.HoldId(m), FloatTreasury, AgentFloat(m.agent), m.amount)))
            && (m.kind == Debit ==> K.Logged(v.float.books.journal, L.Moved(F.PostId(m), F.HoldId(m), AgentFloat(m.agent), FloatTreasury, m.amount)))
  {
    hide Funded, FL.Landed, F.Step, PL.Inv, FL.Inv, CL.Inv, NL.Inv, Apart;
    RunFunded(s, calls, owed, m);
    var u := Run(s, calls);
    StepKeeps(u, Call(AtFloat(Moved(m)), Forever), owed);
    LivesFunded(u.float, m);
    FundedLands(u.float.(life := Forever), m);
    SameStep(u.float, Moved(m));
    LandedDirection(F.Step(u.float, Moved(m), Forever).books, m.(status := F.Posted));
  }

  lemma {:induction false} LandedDirection(b: L.State, m: F.Movement)
    requires FL.Landed(b, m)
    ensures m.kind == Topup ==> K.Logged(b.journal, L.Moved(F.PostId(m), F.HoldId(m), FloatTreasury, AgentFloat(m.agent), m.amount))
    ensures m.kind == Debit ==> K.Logged(b.journal, L.Moved(F.PostId(m), F.HoldId(m), AgentFloat(m.agent), FloatTreasury, m.amount))
  {
    hide K.Logged;
  }

  lemma {:induction false} LivesFunded(w: F.World, m: F.Movement)
    requires FL.Inv(w, true) && Funded(w, m)
    ensures FL.Inv(w.(life := Forever), true) && Funded(w.(life := Forever), m)
  {
    var v := w.(life := Forever);
    hide FL.Agrees, K.WellKept, K.HeldWithinCap;
    forall k ensures FL.At(v, k, true) { assert FL.At(w, k, true); }
  }

  lemma {:induction false} SameStep(w: F.World, op: F.Op)
    ensures F.Step(w.(life := Forever), op, Forever) == F.Step(w, op, Forever)
  {
    hide F.Move, F.Sweep, L.Step;
  }

  // ---------------------------------------------------------------- what a top-up brings can be debited

  /** Opening a float account of one's own changes no balance. */
  lemma {:induction false} OpeningBalances(w: F.World, a: AccountId)
    requires FL.Inv(w, true) && w.life == Forever && FloatAccount(a)
    ensures var v := F.Do(w, F.OpenAccount(a));
            forall x :: L.BalanceOf(v.books, x) == L.BalanceOf(w.books, x)
  {
    FO.InvClosed(w, true);
    hide FL.Inv;
    if a !in w.books.accounts {
      K.OpenSingle(w.books, a, F.FLOAT_ACCOUNT);
    } else {
      var batch := [L.AccountSpec(a, F.FLOAT_ACCOUNT)];
      assert batch[0].id == a && L.RefusedBy(w.books.accounts, batch).Some?;
    }
  }

  /** What a placed movement leaves on the books and beside them. */
  lemma {:induction false} PlacedBooks(w: F.World, m: F.Movement)
    requires FL.Inv(w, true) && w.life == Forever && m.status == F.Pending && F.KeyOf(m) !in w.movements
    requires F.HoldId(m) !in w.books.transfers && F.PostId(m) !in w.books.transfers
    requires L.Hold(w.books, F.HoldId(m), F.HoldTransfer(m)).1.Ok?
    ensures var v := F.Place(w, m, F.NO_FAULTS).0;
            && v.movements.Keys == w.movements.Keys + {F.KeyOf(m)} && v.enlisted == w.enlisted && v.books.accounts == w.books.accounts
            && v.books.transfers.Keys == w.books.transfers.Keys + {F.HoldId(m), F.PostId(m)}
            && LO.Columns(w.books, v.books, FL.PaidFrom(m), FL.PaidTo(m), 0, m.amount)
  {
    hide L.Hold, L.Post, LO.Columns;
    FL.HoldAgrees(w, m, true);
    var w1 := F.Do(w, L.DoHold(F.HoldId(m), F.HoldTransfer(m)));
    FL.UnmovedWhenAbsent(w1.books, m);
    FL.SaveKeeps(w1, m, false, true);
    FL.StandingPosts(F.Save(w1, m, false), m);
    hide FL.Inv;
    FO.HoldThenPost(w.books, m);
  }

  /** A top-up of a fresh agent funds a debit of as much under a new reference. */
  lemma {:induction false} TopupFundsDebit(w: F.World, m: F.Movement, d: F.Movement)
    requires FL.Inv(w, true) && w.life == Forever && Funded(w, m) && m.kind == Topup
    requires L.BalanceOf(w.books, AgentFloat(m.agent)) == L.ZERO_BALANCE && F.PostId(m) !in w.books.transfers
    requires d.kind == Debit && d.agent == m.agent && d.status == F.Pending && d.reference != "" && 0 < d.amount <= m.amount
    requires F.KeyOf(d) !in w.movements && F.HoldId(d) !in w.books.transfers
    ensures Funded(F.Step(w, Moved(m), Forever), d)
  {
    hide FL.Inv, F.Place, L.Hold, F.Do, F.Open, F.EnsureTreasury, F.Move, L.BalanceOf;
    var w1, w2 := Opened(w, m);
    MoveIsPlace(w, m);
    OpenedSame(w, m);
    FundedFacts(w2, m);
    FloatFlags(w2, F.HoldTransfer(m).debit);
    FloatFlags(w2, F.HoldTransfer(m).credit);
    FloatWithin(w2, F.HoldTransfer(m).credit);
    FundedHold(w2.books, m);
    PlacedBooks(w2, m);
    assert LO.MovesColumns(w2.books, F.Place(w2, m, F.NO_FAULTS).0.books, FloatTreasury, AgentFloat(m.agent), 0, m.amount, AgentFloat(m.agent));
  }

  /** Opening the accounts changes no balance, record or transfer. */
  lemma {:induction false} OpenedSame(w: F.World, m: F.Movement)
    requires FL.Inv(w, true) && w.life == Forever
    ensures var v := F.EnsureTreasury(F.Open(w, m.agent, false));
            && v.movements == w.movements && v.books.transfers == w.books.transfers
            && forall x :: L.BalanceOf(v.books, x) == L.BalanceOf(w.books, x)
  {
    FO.AccountsUnshifted(w, m.agent, false, true);
    FL.OpenFloatKeeps(w, m.agent, false, true);
    hide FL.Inv, F.Do, FO.Unshifted, L.BalanceOf;
    OpeningBalances(w, AgentFloat(m.agent));
    OpeningBalances(F.Open(w, m.agent, false), FloatTreasury);
  }

  // ---------------------------------------------------------------- a run

  const BANK := OtherAccount("bank")
  const BANK_ACCOUNT := L.Account(L.LEDGER_AGENT_FLOAT, false, false)
  const DEPOSIT := L.Transfer(BANK, FloatTreasury, L.LEDGER_AGENT_FLOAT, L.CODE_TOPUP, 100, false)
  const TOPUP := F.Movement(Topup, "ref", "a", 40, F.Pending)

  const OPEN_BANK := L.DoCreate([L.AccountSpec(BANK, BANK_ACCOUNT)])
  const OPEN_TREASURY := L.DoCreate([L.AccountSpec(FloatTreasury, F.FLOAT_ACCOUNT)])
  const BANKED := L.State(map[BANK := BANK_ACCOUNT], map[BANK := L.ZERO_BALANCE], map[], 0, L.Empty)
  const READY := L.State(map[BANK := BANK_ACCOUNT, FloatTreasury := F.FLOAT_ACCOUNT],
                         map[BANK := L.ZERO_BALANCE, FloatTreasury := L.ZERO_BALANCE], map[], 0, L.Empty)

  lemma {:induction false} BankOpens()
    ensures L.Step(L.INITIAL, OPEN_BANK) == BANKED && OutsideOp(L.INITIAL, OPEN_BANK)
  {
    K.OpenSingle(L.INITIAL, BANK, BANK_ACCOUNT);
  }

  lemma {:induction false} TreasuryOpens()
    ensures L.Step(BANKED, OPEN_TREASURY) == READY && OutsideOp(BANKED, OPEN_TREASURY)
  {
    K.OpenSingle(BANKED, FloatTreasury, F.FLOAT_ACCOUNT);
  }

  /** A hundred is deposited. */
  lemma {:induction false} Deposited()
    ensures var c := L.Step(READY, L.DoDirect(NoTransfer, DEPOSIT));
            && OutsideOp(READY, L.DoDirect(NoTransfer, DEPOSIT))
            && c.accounts == READY.accounts && c.transfers.Keys == {Random(0)}
            && L.BalanceOf(c, FloatTreasury) == L.Balance(0, 100, 0, 0)
  {
  }

  lemma {:induction false} RunThen(s: Suite, calls: seq<Call>, c: Call, owed: map<C.Key, CL.Due>)
    ensures Run(s, calls + [c]) == Step(Run(s, calls), c.op, c.life)
    ensures AdmissibleRun(s, calls, owed) && Admissible(Run(s, calls), c.op, c.life, owed) ==> AdmissibleRun(s, calls + [c], owed)
  {
    hide Step, Admissible;
    assert (calls + [c])[..|calls|] == calls;
  }

  /** One call on the ledger of an otherwise empty suite. */
  lemma {:induction false} LedgerCall(calls: seq<Call>, b: L.State, l: L.Op)
    requires AdmissibleRun(START, calls, map[]) && Run(START, calls) == Share(START, b) && OutsideOp(b, l)
    ensures var after := calls + [Call(AtLedger(l), Forever)];
            AdmissibleRun(START, after, map[]) && Run(START, after) == Share(START, L.Step(b, l))
  {
    hide Run, AdmissibleRun, L.Step, OutsideOp;
    RunThen(START, calls, Call(AtLedger(l), Forever), map[]);
  }

  /** What the deposit leaves: empty stores and a funded top-up. */
  lemma {:induction false} Depositing() returns (calls: seq<Call>)
    ensures AdmissibleRun(START, calls, map[]) && Funded(Run(START, calls).float, TOPUP)
    ensures var s := Run(START, calls);
            && s == Share(START, s.pay.books) && s.pay.books.accounts.Keys == {BANK, FloatTreasury}
            && s.pay.books.transfers.Keys == {Random(0)}
            && L.BalanceOf(s.pay.books, FloatTreasury) == L.Balance(0, 100, 0, 0)
  {
    hide L.Step, OutsideOp, Funded;
    EmptyRun();
    BankOpens();
    LedgerCall([], L.INITIAL, OPEN_BANK);
    TreasuryOpens();
    LedgerCall([] + [Call(AtLedger(OPEN_BANK), Forever)], BANKED, OPEN_TREASURY);
    Deposited();
    calls := [] + [Call(AtLedger(OPEN_BANK), Forever)] + [Call(AtLedger(OPEN_TREASURY), Forever)];
    LedgerCall(calls, READY, L.DoDirect(NoTransfer, DEPOSIT));
    calls := calls + [Call(AtLedger(L.DoDirect(NoTransfer, DEPOSIT)), Forever)];
    TopupFunded(L.Step(READY, L.DoDirect(NoTransfer, DEPOSIT)));
  }

  lemma {:induction false} EmptyRun()
    ensures AdmissibleRun(START, [], map[]) && Run(START, []) == Share(START, L.INITIAL)
  {
  }

  lemma {:induction false} TopupFunded(b: L.State)
    requires FloatTreasury in b.accounts && b.transfers.Keys == {Random(0)}
    requires L.BalanceOf(b, FloatTreasury) == L.Balance(0, 100, 0, 0)
    ensures Funded(Share(START, b).float, TOPUP)
  {
  }

  /**
   A run from the empty ledger: a deposit into the treasury, a levy intent, a NIP payout,
   and a top-up. The payment is stored with its hold pending, the payout has succeeded,
   and the top-up is posted and has landed.
   */
  lemma {:induction false} DepositedTopupLands() returns (calls: seq<Call>)
    ensures AdmissibleRun(START, calls, map[])
    ensures var s := Run(START, calls);
            && F.KeyOf(TOPUP) in s.float.movements && s.float.movements[F.KeyOf(TOPUP)] == TOPUP.(status := F.Posted)
            && FL.Landed(s.float.books, TOPUP.(status := F.Posted))
            && "1" in s.pay.payments && s.pay.payments["1"].status == P.PendingAuthorisation
            && N.Sess("1") in s.nip.recs && s.nip.recs[N.Sess("1")].status == N.Success
  {
    hide Inv, Funded, FL.Landed, Admissible, Step;
    var before := Depositing();
    var s := Run(START, before);
    RunKeeps(before, map[]);
    var c1 := Call(AtPayments(P.DoIntent(PC.REQUEST, "1", true, true, PC.GOOD)), Forever);
    var c2 := Call(AtNip(N.DoPayout(NR.REQ, NR.Calls(0, "1", N.Success))), Forever);
    IntentStored(s);
    RunThen(s, [], c1, map[]);
    assert Run(s, []) == s && AdmissibleRun(s, [], map[]);
    StepKeeps(s, c1, map[]);
    var s1 := Step(s, c1.op, Forever);
    PayoutDone(s1);
    RunThen(s, [c1], c2, map[]);
    assert [] + [c1] == [c1];
    FundedMovementLands(s, [c1] + [c2], map[], TOPUP);
    var c3 := Call(AtFloat(Moved(TOPUP)), Forever);
    RunThen(START, before, c1, map[]);
    RunThen(START, before + [c1], c2, map[]);
    RunThen(START, before + [c1] + [c2], c3, map[]);
    calls := before + [c1] + [c2] + [c3];
    TopupAside(Step(s1, c2.op, Forever));
  }

  /** The money of a funded movement goes where its kind says. */
  lemma {:induction false} FundedShifts(s: Suite, m: F.Movement)
    requires Inv(s, map[]) && Funded(s.float, m)
    ensures var v := Step(s, AtFloat(Moved(m)), Forever).float;
            && (m.kind == Topup ==> FO.Shifted(s.float.books, v.books, FloatTreasury, AgentFloat(m.agent), m.amount))
            && (m.kind == Debit ==> FO.Shifted(s.float.books, v.books, AgentFloat(m.agent), FloatTreasury, m.amount))
  {
    hide PL.Inv, FL.Inv, CL.Inv, NL.Inv, Apart, Funded, F.Move, FO.Shifted, FO.Covered, FL.Landed;
    var w := s.float.(life := Forever);
    LivesFunded(s.float, m);
    FundedFacts(w, m);
    FundedNamed(w, m);
    FundedLands(w, m);
    SameStep(s.float, Moved(m));
    FO.MoveOutcome(w, m.kind, m.agent, m.amount, m.reference, F.NO_FAULTS, true);
  }

  lemma {:induction false} FundedNamed(w: F.World, m: F.Movement)
    requires Funded(w, m)
    ensures m.reference != "" && F.Key(m.kind, m.reference) !in w.movements
  {
  }

  /** After the top-up the agent has forty and the treasury sixty, and a debit of fifteen is funded. */
  lemma {:induction false} FirstTopup(s: Suite)
    requires Inv(s, map[]) && s == Share(START, s.pay.books) && Funded(s.float, TOPUP)
    requires s.pay.books.accounts.Keys == {BANK, FloatTreasury} && s.pay.books.transfers.Keys == {Random(0)}
    requires L.BalanceOf(s.pay.books, FloatTreasury) == L.Balance(0, 100, 0, 0)
    ensures var v := Step(s, AtFloat(Moved(TOPUP)), Forever).float;
            Funded(v, DRAWN) && FO.Net(v.books, AgentFloat("a")) == 40 && FO.Net(v.books, FloatTreasury) == 60
  {
    FO.InvClosed(s.float, true);
    hide PL.Inv, FL.Inv, CL.Inv, NL.Inv, Apart, Funded, F.Step;
    assert AgentFloat("a") !in s.pay.books.balances;
    FundedShifts(s, TOPUP);
    assert s.float.(life := Forever) == s.float;
    TopupFundsDebit(s.float, TOPUP, DRAWN);
  }

  /** The debit takes fifteen of the agent's forty back to the treasury. */
  lemma {:induction false} ThenDebit(s: Suite)
    requires Inv(s, map[]) && Funded(s.float, DRAWN)
    requires FO.Net(s.float.books, AgentFloat("a")) == 40 && FO.Net(s.float.books, FloatTreasury) == 60
    ensures var v := Step(s, AtFloat(Moved(DRAWN)), Forever).float;
            FO.Net(v.books, AgentFloat("a")) == 25 && FO.Net(v.books, FloatTreasury) == 75
  {
    hide PL.Inv, FL.Inv, CL.Inv, NL.Inv, Apart, Funded, F.Step, FO.Net;
    FundedShifts(s, DRAWN);
  }

  const DRAWN := F.Movement(Debit, "back", "a", 15, F.Pending)

  /**
   A second run: of the top-up's forty the agent is debited fifteen. The agent keeps twenty-five, and the
   treasury has seventy-five of the hundred deposited.
   */
  lemma {:induction false} ToppedUpThenDebited() returns (calls: seq<Call>)
    ensures AdmissibleRun(START, calls, map[])
    ensures var s := Run(START, calls);
            && F.KeyOf(DRAWN) in s.float.movements && s.float.movements[F.KeyOf(DRAWN)] == DRAWN.(status := F.Posted)
            && FO.Net(s.float.books, AgentFloat("a")) == 25 && FO.Net(s.float.books, FloatTreasury) == 75
  {
    hide Inv, Funded, FL.Landed, Admissible, Step, FO.Net;
    var before := Depositing();
    var s := Run(START, before);
    RunKeeps(before, map[]);
    assert Run(s, []) == s && AdmissibleRun(s, [], map[]);
    FundedMovementLands(s, [], map[], TOPUP);
    RunThen(START, before, Call(AtFloat(Moved(TOPUP)), Forever), map[]);
    var s1 := Step(s, AtFloat(Moved(TOPUP)), Forever);
    FirstTopup(s);
    StepKeeps(s, Call(AtFloat(Moved(TOPUP)), Forever), map[]);
    assert Run(s1, []) == s1 && AdmissibleRun(s1, [], map[]);
    FundedMovementLands(s1, [], map[], DRAWN);
    RunThen(START, before + [Call(AtFloat(Moved(TOPUP)), Forever)], Call(AtFloat(Moved(DRAWN)), Forever), map[]);
    calls := before + [Call(AtFloat(Moved(TOPUP)), Forever)] + [Call(AtFloat(Moved(DRAWN)), Forever)];
    ThenDebit(s1);
  }

  lemma {:induction false} TopupAside(s: Suite)
    ensures var v := Step(s, AtFloat(Moved(TOPUP)), Forever);
            v.pay.payments == s.pay.payments && v.nip.recs == s.nip.recs
  {
    hide F.Step;
  }

  lemma {:induction false} IntentStored(s: Suite)
    requires Inv(s, map[]) && s == Share(START, s.pay.books) && s.pay.books.transfers.Keys == {Random(0)}
    requires s.pay.books.accounts.Keys == {BANK, FloatTreasury}
    ensures var op := AtPayments(P.DoIntent(PC.REQUEST, "1", true, true, PC.GOOD));
            var v := Step(s, op, Forever);
            && Admissible(s, op, Forever, map[])
            && "1" in v.pay.payments && v.pay.payments["1"].status == P.PendingAuthorisation
            && v.nip == START.nip.(books := v.nip.books) && v.pay.books == v.nip.books
            && NO.Plain(v.nip.books) && (forall r :: NipLeg(r) !in v.nip.books.transfers)
  {
    hide PL.Inv, FL.Inv, CL.Inv, NL.Inv, P.CreateIntent, Spares, Apart;
    var op := P.DoIntent(PC.REQUEST, "1", true, true, PC.GOOD);
    assert s.pay.(life := Forever) == s.pay;
    PC.IntentSucceeds(s.pay, PC.REQUEST, "1", PC.GOOD);
    PaymentsSpare(s.pay, op, Forever);
    SparedPlain(s.pay.books, P.Step(s.pay, op, Forever).books);
  }

  lemma {:induction false} SparedPlain(a: L.State, b: L.State)
    requires Spares(PaymentSide, a, b) && a.accounts.Keys == {BANK, FloatTreasury} && a.transfers.Keys == {Random(0)}
    ensures NO.Plain(b) && forall r :: NipLeg(r) !in b.transfers
  {
    hide Apart;
    assert SparesAccount(PaymentSide, a, b, Collections) && SparesAccount(PaymentSide, a, b, NipClearing);
    forall r ensures NipLeg(r) !in b.transfers { assert SparesId(PaymentSide, a, b, NipLeg(r)); }
  }

  lemma {:induction false} PayoutDone(s: Suite)
    requires Inv(s, map[]) && s.nip == START.nip.(books := s.nip.books) && NO.Plain(s.nip.books)
    ensures var op := AtNip(N.DoPayout(NR.REQ, NR.Calls(0, "1", N.Success)));
            var v := Step(s, op, Forever);
            && Admissible(s, op, Forever, map[]) && v.pay.payments == s.pay.payments
            && N.Sess("1") in v.nip.recs && v.nip.recs[N.Sess("1")].status == N.Success
  {
    hide PL.Inv, FL.Inv, CL.Inv, NL.Inv, N.Step, NO.Plain;
    NL.Loosened(s.nip, NL.Bound);
    NR.FirstPayout(s.nip, N.Success);
  }
}
