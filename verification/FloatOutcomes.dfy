/** What a float movement does to the agent's balance and to its record, fault by fault. */
module FloatOutcomes {
  import opened Prelude
  import opened Ids
  import L = Ledger
  import LO = LedgerOutcomes
  import K = LedgerLaws
  import opened Floats
  import opened FloatLaws

  /** What is posted to an account, less what is posted from it. */
  function Net(b: L.State, a: AccountId): int
  {
    L.BalanceOf(b, a).creditsPosted - L.BalanceOf(b, a).debitsPosted
  }

  /** `amount` went from one account to the other, and no other posted balance changed. */
  ghost predicate Shifted(b: L.State, c: L.State, from: AccountId, to: AccountId, amount: int)
  {
    forall a :: Net(c, a) == Net(b, a) + (if a == to then amount else 0) - (if a == from then amount else 0)
  }

  /** No posted balance changed. */
  ghost predicate Unshifted(b: L.State, c: L.State)
  {
    forall a :: Net(c, a) == Net(b, a)
  }

  lemma {:induction false} ColumnsShift(b: L.State, c: L.State, from: AccountId, to: AccountId, pending: int, posted: int)
    requires LO.Columns(b, c, from, to, pending, posted)
    ensures Shifted(b, c, from, to, posted) && (posted == 0 ==> Unshifted(b, c))
  {
    forall a ensures Net(c, a) == Net(b, a) + (if a == to then posted else 0) - (if a == from then posted else 0) {
      assert LO.MovesColumns(b, c, from, to, pending, posted, a);
    }
  }

  /** Opening accounts, placing a hold and releasing one move nothing. */
  lemma {:induction false} OpenUnshifted(w: World, a: AccountId)
    requires a != NoAccount && K.Closed(w.books)
    ensures var v := Do(w, OpenAccount(a));
            && v == w.(books := v.books, life := v.life) && (w.life == Forever ==> v.life == Forever)
            && Unshifted(w.books, v.books) && v.books.transfers == w.books.transfers
  {
    var batch := [L.AccountSpec(a, FLOAT_ACCOUNT)];
    if a !in w.books.accounts {
      K.OpenSingle(w.books, a, FLOAT_ACCOUNT);
    } else {
      assert batch[0].id == a && L.RefusedBy(w.books.accounts, batch).Some?;
    }
  }

  /** The ledger accepts the hold of a top-up from the treasury, or of a debit from the agent. */
  predicate Covered(b: L.State, kind: MovementKind, agent: string, amount: nat, reference: string)
  {
    var (from, to, code) := match kind
                            case Topup => (FloatTreasury, AgentFloat(agent), L.CODE_TOPUP)
                            case Debit => (AgentFloat(agent), FloatTreasury, L.CODE_SETTLE);
    L.Hold(b, FloatPending(kind, reference), L.Transfer(from, to, L.LEDGER_AGENT_FLOAT, code, amount, true)).1.Ok?
  }

  lemma {:induction false} HoldUnshifted(b: L.State, m: Movement)
    requires L.Hold(b, HoldId(m), HoldTransfer(m)).1.Ok?
    ensures var c := L.Hold(b, HoldId(m), HoldTransfer(m)).0;
            Unshifted(b, c) && Standing(c, m) && (PostId(m) in c.transfers <==> PostId(m) in b.transfers) && m.amount > 0
  {
    LO.HoldOutcome(b, HoldId(m), HoldTransfer(m));
    var c, t := L.Hold(b, HoldId(m), HoldTransfer(m)).0, HoldTransfer(m);
    hide L.Hold;
    if LO.Unnamed(b, HoldId(m)) { ColumnsShift(b, c, t.debit, t.credit, t.amount, 0); }
  }

  lemma {:induction false} VoidUnshifted(b: L.State, m: Movement)
    requires Standing(b, m)
    ensures var c := L.Void(b, HoldId(m)).0;
            Unshifted(b, c) && Spent(c, m) && (PostId(m) in c.transfers <==> PostId(m) in b.transfers)
  {
    LO.VoidOutcome(b, HoldId(m));
    var c, t := L.Void(b, HoldId(m)).0, HoldTransfer(m);
    hide L.Void;
    ColumnsShift(b, c, t.debit, t.credit, 0 - t.amount, 0);
  }

  lemma {:induction false} PostShifts(b: L.State, m: Movement)
    requires Standing(b, m) && m.amount > 0 && L.Post(b, HoldId(m), PostId(m), m.amount).1.Ok?
    ensures var c := L.Post(b, HoldId(m), PostId(m), m.amount).0;
            Shifted(b, c, PaidFrom(m), PaidTo(m), m.amount) && PostId(m) in c.transfers
  {
    if !LO.Postable(b, b.transfers[HoldId(m)], m.amount) { LO.PostRefused(b, HoldId(m), PostId(m), m.amount); }
    LO.PostOutcome(b, HoldId(m), PostId(m), m.amount);
    var c, t := L.Post(b, HoldId(m), PostId(m), m.amount).0, HoldTransfer(m);
    hide L.Post;
    ColumnsShift(b, c, t.debit, t.credit, 0 - t.amount, m.amount);
  }

  /** A movement whose hold is standing and recorded: its money moves, or its hold is released. */
  lemma {:induction false} SettleShifts(w: World, m: Movement, f: Faults)
    requires w.life == Forever && Standing(w.books, m) && m.amount > 0 && PostId(m) !in w.books.transfers
    ensures var (v, reply) := Settle(w, m, f);
            if PostId(m) in v.books.transfers then
              && Shifted(w.books, v.books, PaidFrom(m), PaidTo(m), m.amount)
              && v.movements == (if f.mark then w.movements else w.movements[Key(m.kind, m.reference) := m.(status := Posted)])
              && reply == (if f.mark then None else Some(m.(status := Posted)))
            else
              && Unshifted(w.books, v.books) && Spent(v.books, m) && reply == None
              && v.movements == (if f.voidMark then w.movements else w.movements[Key(m.kind, m.reference) := m.(status := Voided)])
    ensures PostId(m) in Settle(w, m, f).0.books.transfers <==> L.Post(w.books, HoldId(m), PostId(m), m.amount).1.Ok?
  {
    hide L.Post, L.Void, Standing, Shifted, Unshifted;
    if L.Post(w.books, HoldId(m), PostId(m), m.amount).1.Ok? { PostShifts(w.books, m); } else { VoidUnshifted(w.books, m); }
  }

  lemma {:induction false} UnshiftedThen(a: L.State, b: L.State, c: L.State)
    requires Unshifted(a, b)
    ensures Unshifted(b, c) ==> Unshifted(a, c)
    ensures forall from, to, n :: Shifted(b, c, from, to, n) ==> Shifted(a, c, from, to, n)
  {
    forall from, to, n | Shifted(b, c, from, to, n) ensures Shifted(a, c, from, to, n) { }
  }

  /** The accounts of a movement are opened first: nothing moves, no record changes. */
  lemma {:induction false} AccountsUnshifted(w: World, agent: string, fault: bool, strict: bool)
    requires Inv(w, strict) && w.life == Forever
    ensures var v := EnsureTreasury(Open(w, agent, fault));
            && Inv(v, strict) && v.life == Forever && v.movements == w.movements && v.books.transfers == w.books.transfers
            && Unshifted(w.books, v.books)
            && (v.enlisted == if fault then w.enlisted else w.enlisted + {agent})
    ensures var v := Open(w, agent, fault);
            v.movements == w.movements && v.books.transfers == w.books.transfers && Unshifted(w.books, v.books)
  {
    InvClosed(w, strict);
    OpenFloatKeeps(w, agent, fault, strict);
    var w1 := Open(w, agent, fault);
    InvClosed(w1, strict);
    OpenKeeps(w1, FloatTreasury, strict);
    hide Inv, Do, Unshifted;
    OpenUnshifted(w, AgentFloat(agent));
    OpenUnshifted(w1, FloatTreasury);
    assert Unshifted(w.books, w.books) && Unshifted(w1.books, w1.books) by { SelfUnshifted(w.books); SelfUnshifted(w1.books); }
    UnshiftedThen(w.books, w1.books, EnsureTreasury(w1).books);
  }

  lemma {:induction false} SelfUnshifted(b: L.State)
    ensures Unshifted(b, b)
  {
  }

  lemma {:induction false} InvClosed(w: World, strict: bool)
    requires Inv(w, strict)
    ensures K.Closed(w.books)
  {
  }

  /** What became of the record and of the money. */
  ghost predicate Ended(w: World, v: World, m: Movement, reply: Option<Movement>, f: Faults)
  {
    if PostId(m) in v.books.transfers then
      && Shifted(w.books, v.books, PaidFrom(m), PaidTo(m), m.amount)
      && v.movements == w.movements[Key(m.kind, m.reference) := m.(status := if f.mark then Pending else Posted)]
      && reply == (if f.mark then None else Some(m.(status := Posted)))
    else
      && Unshifted(w.books, v.books) && Spent(v.books, m) && reply == None
      && v.movements == w.movements[Key(m.kind, m.reference) := m.(status := if f.voidMark then Pending else Voided)]
  }

  /** Hold, record, post, mark: what each fault leaves. */
  lemma {:induction false} PlaceOutcome(w: World, m: Movement, f: Faults, strict: bool)
    requires Inv(w, strict) && w.life == Forever && KeyOf(m) !in w.movements && m.status == Pending
    ensures var (v, reply) := Place(w, m, f);
            if !Covered(w.books, m.kind, m.agent, m.amount, m.reference) then v == w && reply == None
            else if f.record then
              && v.movements == w.movements && reply == None && Unshifted(w.books, v.books)
              && Spent(v.books, m) && PostId(m) !in v.books.transfers
            else Ended(w, v, m, reply, f) && (strict ==> PostId(m) in v.books.transfers)
  {
    hide L.Hold, L.Post, L.Void, Unshifted, Shifted, Standing;
    assert At(w, KeyOf(m), strict);
    if L.Hold(w.books, HoldId(m), HoldTransfer(m)).1.Ok? {
      HoldUnshifted(w.books, m);
      HoldAgrees(w, m, strict);
      var w1 := Do(w, L.DoHold(HoldId(m), HoldTransfer(m)));
      UnmovedWhenAbsent(w1.books, m);
      SaveKeeps(w1, m, f.record, strict);
      var w2 := Save(w1, m, f.record);
      hide Inv, At;
      if f.record {
        VoidUnshifted(w2.books, m);
        UnshiftedThen(w.books, w1.books, L.Void(w2.books, HoldId(m)).0);
      } else {
        if strict { StandingPosts(w2, m); }
        SettleShifts(w2, m, f);
        UnshiftedThen(w.books, w1.books, Settle(w2, m, f).0.books);
      }
    }
  }

  /**
   A movement under a new reference, on any ledger: unless its accounts cannot be opened, its hold is not covered or it
   cannot be recorded, it is recorded; and where it is posted, which on a strict ledger is always, a top-up raises the
   agent's posted balance by the amount and a debit lowers it, the treasury's moving the other way and no other at all.
   */
  lemma {:induction false} MoveOutcome(w: World, kind: MovementKind, agent: string, amount: nat, reference: string, f: Faults, strict: bool)
    requires Inv(w, strict) && w.life == Forever && reference != "" && Key(kind, reference) !in w.movements
    ensures var (v, reply) := Move(w, kind, agent, amount, reference, f);
            var u := EnsureTreasury(Open(w, agent, f.account));
            var hold, post := FloatPending(kind, reference), FloatPost(kind, reference);
            var m := Movement(kind, reference, agent, amount, Pending);
            if (f.account && agent !in w.enlisted) || !Covered(u.books, kind, agent, amount, reference) then
              v.movements == w.movements && v.books.transfers == w.books.transfers && reply == None && Unshifted(w.books, v.books)
            else if f.record then
              && v.movements == w.movements && reply == None && Unshifted(w.books, v.books)
              && hold in v.books.transfers && !v.books.transfers[hold].pending && post !in v.books.transfers
            else if post in v.books.transfers then
              && (kind == Topup ==> Shifted(w.books, v.books, FloatTreasury, AgentFloat(agent), amount))
              && (kind == Debit ==> Shifted(w.books, v.books, AgentFloat(agent), FloatTreasury, amount))
              && v.movements == w.movements[Key(kind, reference) := m.(status := if f.mark then Pending else Posted)]
              && reply == (if f.mark then None else Some(m.(status := Posted)))
            else
              && !strict && reply == None && Unshifted(w.books, v.books)
              && hold in v.books.transfers && !v.books.transfers[hold].pending
              && v.movements == w.movements[Key(kind, reference) := m.(status := if f.voidMark then Pending else Voided)]
  {
    hide Inv, Unshifted, Shifted, Place, L.Hold, Open, EnsureTreasury, Covered;
    var m := Movement(kind, reference, agent, amount, Pending);
    AccountsUnshifted(w, agent, f.account, strict);
    var u := EnsureTreasury(Open(w, agent, f.account));
    if !(f.account && agent !in w.enlisted) {
      PlaceOutcome(u, m, f, strict);
      UnshiftedThen(w.books, u.books, Place(u, m, f).0.books);
    }
  }

  /** A debit that answers has lowered the agent's posted balance by its amount, a top-up has raised it. */
  lemma {:induction false} AgentBalanceMoves(w: World, kind: MovementKind, agent: string, amount: nat, reference: string, f: Faults)
    requires Inv(w, false) && w.life == Forever && Key(kind, reference) !in w.movements
    requires Move(w, kind, agent, amount, reference, f).1.Some?
    ensures var v := Move(w, kind, agent, amount, reference, f).0;
            && (kind == Debit ==> Net(v.books, AgentFloat(agent)) == Net(w.books, AgentFloat(agent)) - amount)
            && (kind == Topup ==> Net(v.books, AgentFloat(agent)) == Net(w.books, AgentFloat(agent)) + amount)
  {
    hide Inv, Net, Covered;
    MoveReply(w, kind, agent, amount, reference, f);
    MoveOutcome(w, kind, agent, amount, reference, f, false);
  }

  // ---------------------------------------------------------------- nothing stays held

  /** The pending columns of every account are as they were. */
  ghost predicate SameHeld(b: L.State, c: L.State)
  {
    forall a :: L.BalanceOf(c, a).debitsPending == L.BalanceOf(b, a).debitsPending
                && L.BalanceOf(c, a).creditsPending == L.BalanceOf(b, a).creditsPending
  }

  lemma {:induction false} HoldColumns(b: L.State, m: Movement)
    requires HoldId(m) !in b.transfers && L.Hold(b, HoldId(m), HoldTransfer(m)).1.Ok?
    ensures var c := L.Hold(b, HoldId(m), HoldTransfer(m)).0;
            && LO.Columns(b, c, PaidFrom(m), PaidTo(m), m.amount, 0) && Standing(c, m) && m.amount > 0
            && c.accounts == b.accounts && c.transfers.Keys == b.transfers.Keys + {HoldId(m)}
  {
    LO.HoldOutcome(b, HoldId(m), HoldTransfer(m));
    hide L.Hold, LO.Columns, LO.Within;
  }

  lemma {:induction false} PostColumns(b: L.State, m: Movement)
    requires Standing(b, m) && m.amount > 0 && L.Post(b, HoldId(m), PostId(m), m.amount).1.Ok?
    ensures var c := L.Post(b, HoldId(m), PostId(m), m.amount).0;
            && LO.Columns(b, c, PaidFrom(m), PaidTo(m), 0 - m.amount, m.amount)
            && c.accounts == b.accounts && c.transfers.Keys == b.transfers.Keys + {PostId(m)}
  {
    hide LO.Within, LO.Columns;
    if !LO.Postable(b, b.transfers[HoldId(m)], m.amount) { LO.PostRefused(b, HoldId(m), PostId(m), m.amount); }
    LO.PostOutcome(b, HoldId(m), PostId(m), m.amount);
    hide L.Post;
  }

  /** A new hold and its post in full cancel out in the pending columns, and move the amount in the posted ones. */
  lemma {:induction false} HoldThenPost(b: L.State, m: Movement)
    requires HoldId(m) !in b.transfers && PostId(m) !in b.transfers
    requires L.Hold(b, HoldId(m), HoldTransfer(m)).1.Ok?
    requires L.Post(L.Hold(b, HoldId(m), HoldTransfer(m)).0, HoldId(m), PostId(m), m.amount).1.Ok?
    ensures var c := L.Post(L.Hold(b, HoldId(m), HoldTransfer(m)).0, HoldId(m), PostId(m), m.amount).0;
            && LO.Columns(b, c, PaidFrom(m), PaidTo(m), 0, m.amount) && SameHeld(b, c)
            && c.accounts == b.accounts && c.transfers.Keys == b.transfers.Keys + {HoldId(m), PostId(m)}
  {
    hide L.Hold, L.Post, LO.Columns, SameHeld, Standing;
    var c := L.Hold(b, HoldId(m), HoldTransfer(m)).0;
    HoldColumns(b, m);
    PostColumns(c, m);
    ColumnsThen(b, c, L.Post(c, HoldId(m), PostId(m), m.amount).0, PaidFrom(m), PaidTo(m), m.amount, m.amount);
  }

  /** Pending amounts that come and go leave the pending columns as they were. */
  lemma {:induction false} ColumnsThen(b: L.State, c: L.State, d: L.State, from: AccountId, to: AccountId, held: int, moved: int)
    requires LO.Columns(b, c, from, to, held, 0) && LO.Columns(c, d, from, to, 0 - held, moved)
    ensures LO.Columns(b, d, from, to, 0, moved) && SameHeld(b, d)
  {
    forall a ensures LO.MovesColumns(b, d, from, to, 0, moved, a) {
      assert LO.MovesColumns(b, c, from, to, held, 0, a) && LO.MovesColumns(c, d, from, to, 0 - held, moved, a);
    }
    forall a ensures L.BalanceOf(d, a).debitsPending == L.BalanceOf(b, a).debitsPending
                     && L.BalanceOf(d, a).creditsPending == L.BalanceOf(b, a).creditsPending
    {
      assert LO.MovesColumns(b, d, from, to, 0, moved, a);
    }
  }

  /** A row of the sweep: a pending movement whose hold stands is posted, or released when the ledger refuses; any other row is left. */
  lemma {:induction false} SweepRowOutcome(w: World, m: Movement, f: Faults)
    requires w.life == Forever
    requires m.status == Pending ==> Standing(w.books, m) && m.amount > 0 && PostId(m) !in w.books.transfers
    ensures var v := SweepOne(w, m, f);
            if m.status != Pending then v == w
            else if PostId(m) in v.books.transfers then
              && Shifted(w.books, v.books, PaidFrom(m), PaidTo(m), m.amount)
              && v.movements == (if f.mark then w.movements else w.movements[Key(m.kind, m.reference) := m.(status := Posted)])
            else
              && Unshifted(w.books, v.books) && Spent(v.books, m)
              && v.movements == (if f.voidMark then w.movements else w.movements[Key(m.kind, m.reference) := m.(status := Voided)])
  {
    hide L.Post, Unshifted, Shifted, Spent;
    if m.status == Pending {
      SettleShifts(w, m, f);
      LO.VoidOutcome(w.books, HoldId(m));
      hide L.Void;
      assert SweepOne(w, m, f) == Settle(w, m, f).0;
    }
  }
}
