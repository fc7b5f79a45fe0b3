/**
 One ledger, four services. Every service writes only under its own transfer ids,
 opens only accounts of its own kind, and only the float service touches float
 accounts: what one ledger call of a service can change for the others.
 */
module SharedLedger {
  import opened Prelude
  import opened Ids
  import L = Ledger
  import opened LedgerLaws
  import P = Payments
  import F = Floats
  import C = Commissions

  datatype Service = PaymentSide | FloatSide | CommissionSide | NipSide | Nobody

  /** The service whose seeds a transfer id is derived from. */
  function Owner(id: TransferId): Service
  {
    if id.PsmIntent? || id.PsmPost? || id.PsmFee? || id.PsmCompensation? || id.PsmDisputeHold? || id.PsmDisputeDebit?
    then PaymentSide
    else if id.FloatPending? || id.FloatPost? then FloatSide
    else if id.CommFund? || id.CommHold? || id.CommPost? || id.CommClawback? then CommissionSide
    else if id.NipLeg? || id.NipPost? then NipSide
    else Nobody
  }

  predicate FloatAccount(a: AccountId)
  {
    a.AgentFloat? || a.FloatTreasury?
  }

  /** The flags under which the services open an account. */
  function Flavour(a: AccountId): Option<L.Account>
  {
    if FloatAccount(a) then Some(F.FLOAT_ACCOUNT)
    else if a.CommissionPool? || a.CommissionTreasury? || a.AgentCommission? then Some(C.COMMISSION_ACCOUNT)
    else if a == NoAccount || a.OtherAccount? then None
    else Some(P.PSM_ACCOUNT)
  }

  /** The ledger calls a service makes. */
  predicate OwnOp(me: Service, op: L.Op)
  {
    me != Nobody &&
    match op
    case DoCreate(batch) =>
      && |batch| == 1 && Flavour(batch[0].id) == Some(batch[0].account)
      && (FloatAccount(batch[0].id) ==> me == FloatSide)
    case DoDirect(id, t) => Owner(id) == me && Between(me, t)
    case DoHold(id, t) => Owner(id) == me && Between(me, t)
    case DoPost(hold, post, _) => Owner(hold) == me && Owner(post) == me
    case DoVoid(hold) => Owner(hold) == me
  }

  predicate Between(me: Service, t: L.Transfer)
  {
    FloatAccount(t.debit) || FloatAccount(t.credit) ==> me == FloatSide
  }

  /** Records of the other services move nothing on float accounts. */
  predicate ApartAt(b: L.State, id: TransferId)
  {
    id in b.transfers && Owner(id) != Nobody ==> Between(Owner(id), b.transfers[id])
  }

  ghost predicate Apart(b: L.State)
  {
    forall id :: ApartAt(b, id)
  }

  predicate Foreign(me: Service, id: TransferId)
  {
    Owner(id) != Nobody && Owner(id) != me
  }

  ghost predicate SparesId(me: Service, b: L.State, c: L.State, id: TransferId)
  {
    Foreign(me, id) ==> SameRecord(b, c, id)
  }

  /** Accounts stay as they are, new ones have their flavour, and float accounts are left to the float service. */
  ghost predicate SparesAccount(me: Service, b: L.State, c: L.State, a: AccountId)
  {
    && (a in b.accounts ==> a in c.accounts && c.accounts[a] == b.accounts[a])
    && (a in c.accounts && a !in b.accounts ==> Flavour(a) == Some(c.accounts[a]))
    && (me != FloatSide && FloatAccount(a) ==>
          (a in c.accounts ==> a in b.accounts) && L.BalanceOf(c, a) == L.BalanceOf(b, a))
  }

  /** From `b` to `c` service `me` was at work: nothing of the others changed. */
  ghost predicate Spares(me: Service, b: L.State, c: L.State)
  {
    && Apart(c)
    && (forall id :: SparesId(me, b, c, id))
    && (forall a :: SparesAccount(me, b, c, a))
    && (forall e :: Logged(b.journal, e) ==> Logged(c.journal, e))
  }

  lemma {:induction false} SparesNothing(me: Service, b: L.State)
    requires Apart(b)
    ensures Spares(me, b, b)
  {
  }

  // ---------------------------------------------------------------- one call

  lemma {:induction false} StepSparesId(me: Service, b: L.State, op: L.Op, id: TransferId)
    requires OwnOp(me, op)
    ensures SparesId(me, b, L.Step(b, op), id)
  {
    hide L.Step, SameRecord;
    if Foreign(me, id) { StepFrame(b, op, id); }
  }

  lemma {:induction false} NewApart(me: Service, b: L.State, op: L.Op, id: TransferId)
    requires (op.DoDirect? || op.DoHold?) && ApartAt(b, id) && OwnOp(me, op) && Names(op, id)
    ensures ApartAt(L.Step(b, op), id)
  {
    hide L.CheckBoth, L.Shift;
  }

  lemma {:induction false} PostApart(me: Service, b: L.State, op: L.Op, id: TransferId)
    requires op.DoPost? && ApartAt(b, id) && ApartAt(b, op.hold) && OwnOp(me, op) && Names(op, id)
    ensures ApartAt(L.Step(b, op), id)
  {
    hide L.CheckBoth, L.Shift;
  }

  lemma {:induction false} VoidApart(me: Service, b: L.State, op: L.Op, id: TransferId)
    requires op.DoVoid? && ApartAt(b, id) && OwnOp(me, op) && Names(op, id)
    ensures ApartAt(L.Step(b, op), id)
  {
    hide L.Shift;
  }

  /** The record an operation writes under an id it names. */
  lemma {:induction false} StepApartNamed(me: Service, b: L.State, op: L.Op, id: TransferId)
    requires Apart(b) && OwnOp(me, op) && Names(op, id)
    ensures ApartAt(L.Step(b, op), id)
  {
    hide L.Step, OwnOp;
    assert ApartAt(b, id);
    match op
    case DoCreate(_) =>
    case DoDirect(_, _) => NewApart(me, b, op, id);
    case DoHold(_, _) => NewApart(me, b, op, id);
    case DoPost(hold, _, _) =>
      assert ApartAt(b, hold);
      PostApart(me, b, op, id);
    case DoVoid(_) => VoidApart(me, b, op, id);
  }

  lemma {:induction false} StepApart(me: Service, b: L.State, op: L.Op)
    requires Apart(b) && OwnOp(me, op)
    ensures Apart(L.Step(b, op))
  {
    hide L.Step;
    forall id ensures ApartAt(L.Step(b, op), id) {
      assert ApartAt(b, id);
      if Names(op, id) {
        StepApartNamed(me, b, op, id);
      } else if Owner(id) != Nobody {
        StepFrame(b, op, id);
      }
    }
  }

  lemma {:induction false} OpenSpares(me: Service, b: L.State, op: L.Op, a: AccountId)
    requires OwnOp(me, op) && op.DoCreate?
    ensures SparesAccount(me, b, L.Step(b, op), a)
  {
    var spec := op.batch[0];
    assert op.batch == [spec];
    if spec.id !in b.accounts {
      OpenSingle(b, spec.id, spec.account);
    } else {
      assert op.batch[0].id in b.accounts;
      assert L.RefusedBy(b.accounts, op.batch).Some?;
    }
  }

  /** Moving between two accounts leaves the balance of a third alone. */
  lemma {:induction false} ShiftElsewhere(s: L.State, debit: AccountId, credit: AccountId, pending: int, posted: int, a: AccountId)
    requires a != debit && a != credit
    ensures L.BalanceOf(L.Shift(s, debit, credit, pending, posted), a) == L.BalanceOf(s, a)
  {
  }

  lemma {:induction false} DirectSpares(me: Service, b: L.State, op: L.Op, a: AccountId)
    requires OwnOp(me, op) && op.DoDirect?
    ensures SparesAccount(me, b, L.Step(b, op), a)
  {
    hide L.CheckBoth, L.Shift;
    var t := op.t;
    SameAccounts(b, op);
    if a != t.debit && a != t.credit { ShiftElsewhere(b, t.debit, t.credit, 0, t.amount, a); }
  }

  lemma {:induction false} HoldSpares(me: Service, b: L.State, op: L.Op, a: AccountId)
    requires OwnOp(me, op) && op.DoHold?
    ensures SparesAccount(me, b, L.Step(b, op), a)
  {
    hide L.CheckBoth, L.Shift;
    var t := op.t;
    SameAccounts(b, op);
    if a != t.debit && a != t.credit { ShiftElsewhere(b, t.debit, t.credit, t.amount, 0, a); }
  }

  lemma {:induction false} PostSpares(me: Service, b: L.State, op: L.Op, a: AccountId)
    requires op.DoPost? && OwnOp(me, op) && ApartAt(b, op.hold)
    ensures SparesAccount(me, b, L.Step(b, op), a)
  {
    hide L.CheckBoth, L.Shift, L.PostedRecords;
    SameAccounts(b, op);
    if op.hold in b.transfers {
      var t := b.transfers[op.hold];
      var amount := if op.amount == 0 then t.amount else op.amount;
      if a != t.debit && a != t.credit { ShiftElsewhere(b, t.debit, t.credit, 0 - t.amount, amount, a); }
    }
  }

  lemma {:induction false} VoidSpares(me: Service, b: L.State, op: L.Op, a: AccountId)
    requires op.DoVoid? && OwnOp(me, op) && ApartAt(b, op.hold)
    ensures SparesAccount(me, b, L.Step(b, op), a)
  {
    hide L.Shift;
    SameAccounts(b, op);
    if op.hold in b.transfers {
      var t := b.transfers[op.hold];
      if a != t.debit && a != t.credit { ShiftElsewhere(b, t.debit, t.credit, 0 - t.amount, 0, a); }
    }
  }

  lemma {:induction false} MoveSpares(me: Service, b: L.State, op: L.Op, a: AccountId)
    requires Apart(b) && OwnOp(me, op)
    ensures SparesAccount(me, b, L.Step(b, op), a)
  {
    hide L.Step, OwnOp, SparesAccount;
    match op
    case DoCreate(_) => OpenSpares(me, b, op, a);
    case DoDirect(_, _) => DirectSpares(me, b, op, a);
    case DoHold(_, _) => HoldSpares(me, b, op, a);
    case DoPost(hold, _, _) =>
      assert ApartAt(b, hold);
      PostSpares(me, b, op, a);
    case DoVoid(hold) =>
      assert ApartAt(b, hold);
      VoidSpares(me, b, op, a);
  }

  lemma {:induction false} SameAccounts(b: L.State, op: L.Op)
    requires !op.DoCreate?
    ensures L.Step(b, op).accounts == b.accounts
  {
  }

  /** One more ledger call of the same service. */
  lemma {:induction false} StepSpares(me: Service, a: L.State, b: L.State, op: L.Op)
    requires Spares(me, a, b) && OwnOp(me, op)
    ensures Spares(me, a, L.Step(b, op))
  {
    hide L.Step, SameRecord, OwnOp;
    var c := L.Step(b, op);
    StepApart(me, b, op);
    forall id ensures SparesId(me, a, c, id) {
      assert SparesId(me, a, b, id);
      StepSparesId(me, b, op, id);
      if Foreign(me, id) { SameThen(a, b, c, id); }
    }
    forall x ensures SparesAccount(me, a, c, x) {
      assert SparesAccount(me, a, b, x);
      MoveSpares(me, b, op, x);
    }
    StepLogs(b, op);
  }

  lemma {:induction false} SameThen(a: L.State, b: L.State, c: L.State, id: TransferId)
    requires SameRecord(a, b, id) && SameRecord(b, c, id)
    ensures SameRecord(a, c, id)
  {
  }

  // ---------------------------------------------------------------- traffic of nobody

  predicate OutsideId(id: TransferId)
  {
    id == NoTransfer || id.OtherTransfer?
  }

  /**
   What may happen on the ledger besides the services: accounts are opened, those of the
   services under their flags; money is moved, held, posted and released under ids of no
   service and between any accounts. Float accounts are debited only through holds.
   */
  predicate OutsideOp(b: L.State, op: L.Op)
  {
    Disciplined(b, op) &&
    match op
    case DoCreate(batch) => forall i :: 0 <= i < |batch| ==> Flavour(batch[i].id) in {None, Some(batch[i].account)}
    case DoDirect(id, t) => OutsideId(id) && !FloatAccount(t.debit)
    case DoHold(id, t) => OutsideId(id)
    case DoPost(hold, post, _) => OutsideId(hold) && OutsideId(post)
    case DoVoid(hold) => OutsideId(hold)
  }

  lemma {:induction false} OutsideNames(b: L.State, op: L.Op, id: TransferId)
    requires OutsideOp(b, op) && Owner(id) != Nobody
    ensures !Names(op, id)
  {
  }

  lemma {:induction false} OutsideApart(b: L.State, op: L.Op)
    requires Apart(b) && OutsideOp(b, op)
    ensures Apart(L.Step(b, op))
  {
    hide L.Step, OutsideOp;
    forall id ensures ApartAt(L.Step(b, op), id) {
      assert ApartAt(b, id);
      if Owner(id) != Nobody {
        OutsideNames(b, op, id);
        StepFrame(b, op, id);
      }
    }
  }
}
