/** What every run of accruals, clawbacks, expiries and deletions keeps, with crashes anywhere. */
module CommissionLaws {
  import opened Prelude
  import opened Ids
  import L = Ledger
  import opened LedgerLaws
  import opened Commissions

  // ---------------------------------------------------------------- the ledger only grows

  ghost predicate SettledAt(s: L.State, t: L.State, id: TransferId)
  {
    id in s.transfers && !s.transfers[id].pending ==> id in t.transfers && t.transfers[id] == s.transfers[id]
  }

  /** Records that are no longer pending, and open accounts, are still there unchanged. */
  ghost predicate Extends(s: L.State, t: L.State)
  {
    && (forall id :: SettledAt(s, t, id))
    && (forall a :: a in s.accounts ==> a in t.accounts && t.accounts[a] == s.accounts[a])
  }

  lemma {:induction false} ExtendsThen(s: L.State, t: L.State, u: L.State)
    requires Extends(s, t) && Extends(t, u)
    ensures Extends(s, u)
  {
    forall id ensures SettledAt(s, u, id) { assert SettledAt(s, t, id) && SettledAt(t, u, id); }
  }

  lemma {:induction false} StepExtends(s: L.State, op: L.Op)
    requires WellKept(s) && Disciplined(s, op)
    ensures Extends(s, L.Step(s, op))
  {
    forall id ensures SettledAt(s, L.Step(s, op), id) {
      if id in s.transfers && !s.transfers[id].pending { StepFrozen(s, op, id); }
    }
    if op.DoCreate? && L.RefusedBy(s.accounts, op.batch).None? { OpenAllOpens(s, op.batch); }
  }

  // ---------------------------------------------------------------- invariant

  /** The post landed: it consumed the hold and moved its amount once, from the pool to an agent. */
  ghost predicate Landed(s: L.State, k: Key)
  {
    && HoldId(k) in s.transfers && PostId(k) in s.transfers
    && s.transfers[HoldId(k)] == s.transfers[PostId(k)]
    && var t := s.transfers[PostId(k)];
       && !t.pending
       && Moves(s.journal, PostId(k)) == 1 && AmountMoved(s.journal, PostId(k)) == t.amount
       && Logged(s.journal, L.Moved(PostId(k), HoldId(k), CommissionPool, t.credit, t.amount))
  }

  /** The reversal landed: it moved its amount once, from an agent back to the pool. */
  ghost predicate Reversed(s: L.State, k: Key)
  {
    && ClawbackId(k) in s.transfers
    && var t := s.transfers[ClawbackId(k)];
       && !t.pending && t.debit.AgentCommission? && t.credit == CommissionPool
       && Moves(s.journal, ClawbackId(k)) == 1 && AmountMoved(s.journal, ClawbackId(k)) == t.amount
       && Logged(s.journal, L.Moved(ClawbackId(k), NoTransfer, t.debit, CommissionPool, t.amount))
  }

  /** What every accrual of a key proposes, for the keys where they all agree. */
  datatype Due = Due(agent: string, amount: nat)

  predicate Proposes(p: Payload, k: Key, owed: map<Key, Due>)
  {
    k in owed ==> p.agent == owed[k].agent && p.amount == owed[k].amount
  }

  ghost predicate HoldShape(s: L.State, k: Key, owed: map<Key, Due>)
  {
    HoldId(k) in s.transfers ==>
      var t := s.transfers[HoldId(k)];
      && t.debit == CommissionPool && t.credit.AgentCommission?
      && (k in owed ==> t.credit == AgentCommission(owed[k].agent) && t.amount == owed[k].amount)
  }

  /** The accounts a level moves money between are open. */
  predicate Ready(s: L.State, agent: string)
  {
    CommissionPool in s.accounts && AgentCommission(agent) in s.accounts
  }

  ghost predicate At(w: World, k: Key, owed: map<Key, Due>)
  {
    && HoldShape(w.books, k, owed)
    && (PostId(k) in w.books.transfers ==> Landed(w.books, k))
    && (ClawbackId(k) in w.books.transfers ==>
          && PostId(k) in w.books.transfers && Reversed(w.books, k)
          && (k in owed ==> w.books.transfers[ClawbackId(k)].debit == AgentCommission(owed[k].agent)
                            && w.books.transfers[ClawbackId(k)].amount == owed[k].amount))
    && (k in w.records ==>
          && KeyOf(w.records[k]) == k && PostId(k) in w.books.transfers
          && w.records[k].payload.amount > 0 && Ready(w.books, w.records[k].payload.agent)
          && Proposes(w.records[k].payload, k, owed)
          && (w.records[k].status == ClawedBack ==> ClawbackId(k) in w.books.transfers))
  }

  ghost predicate Inv(w: World, owed: map<Key, Due>)
  {
    WellKept(w.books) && forall k :: At(w, k, owed)
  }

  /** `v` follows `w`: the invariant holds there and the ledger only grew. */
  ghost predicate Follows(w: World, v: World, owed: map<Key, Due>)
  {
    Inv(v, owed) && Extends(w.books, v.books)
  }

  // ---------------------------------------------------------------- one durable call

  predicate Touches(op: L.Op, k: Key)
  {
    Names(op, HoldId(k)) || Names(op, PostId(k)) || Names(op, ClawbackId(k))
  }

  lemma {:induction false} ElsewhereAt(w: World, op: L.Op, k: Key, owed: map<Key, Due>)
    requires WellKept(w.books) && Disciplined(w.books, op) && At(w, k, owed) && !Touches(op, k)
    ensures At(w.(books := L.Step(w.books, op)), k, owed)
  {
    StepFrame(w.books, op, HoldId(k));
    StepFrame(w.books, op, PostId(k));
    StepFrame(w.books, op, ClawbackId(k));
    StepExtends(w.books, op);
  }

  /** A ledger call keeps the invariant when it keeps it at the one key it touches. */
  lemma {:induction false} DoKeeps(w: World, op: L.Op, k: Key, owed: map<Key, Due>)
    requires Inv(w, owed) && Disciplined(w.books, op)
    requires forall other :: other != k ==> !Touches(op, other)
    requires At(w.(books := L.Step(w.books, op)), k, owed)
    ensures Follows(w, Do(w, op), owed) && Follows(w, w.(books := L.Step(w.books, op)), owed)
  {
    hide WellKept, L.Step, HoldShape, Landed, Reversed;
    var v := w.(books := L.Step(w.books, op));
    StepKeeps(w.books, op);
    StepExtends(w.books, op);
    forall other ensures At(v, other, owed) && At(Do(w, op), other, owed) {
      if other != k { ElsewhereAt(w, op, other, owed); }
      assert At(w, other, owed);
    }
  }

  /** A call that names no commission id. */
  lemma {:induction false} AsideKeeps(w: World, op: L.Op, owed: map<Key, Due>)
    requires Inv(w, owed) && Disciplined(w.books, op) && forall k :: !Touches(op, k)
    ensures Follows(w, Do(w, op), owed) && Follows(w, w.(books := L.Step(w.books, op)), owed)
  {
    var k := Key("", "", 0);
    assert At(w, k, owed) && !Touches(op, k);
    ElsewhereAt(w, op, k, owed);
    DoKeeps(w, op, k, owed);
  }

  lemma {:induction false} SaveKeeps(w: World, r: Record, fault: bool, owed: map<Key, Due>)
    requires Inv(w, owed)
    requires w.life != For(0) && !fault ==>
               && PostId(KeyOf(r)) in w.books.transfers && Proposes(r.payload, KeyOf(r), owed)
               && r.payload.amount > 0 && Ready(w.books, r.payload.agent)
               && (r.status == ClawedBack ==> ClawbackId(KeyOf(r)) in w.books.transfers)
    ensures Follows(w, Save(w, r, fault), owed)
  {
    forall k ensures At(Save(w, r, fault), k, owed) { assert At(w, k, owed); }
  }

  lemma {:induction false} EraseKeeps(w: World, k: Key, owed: map<Key, Due>)
    requires Inv(w, owed)
    ensures Follows(w, Erase(w, k), owed)
  {
    forall other ensures At(Erase(w, k), other, owed) { assert At(w, other, owed); }
  }

  lemma {:induction false} EnsureKeeps(w: World, a: AccountId, owed: map<Key, Due>)
    requires Inv(w, owed) && a != NoAccount
    ensures Follows(w, Ensure(w, a), owed) && (Ensure(w, a).life != For(0) ==> a in Ensure(w, a).books.accounts)
  {
    if a !in w.books.accounts { OpenSingle(w.books, a, COMMISSION_ACCOUNT); }
    AsideKeeps(w, L.DoCreate([L.AccountSpec(a, COMMISSION_ACCOUNT)]), owed);
  }

  lemma {:induction false} EnsureBothKeeps(w: World, agent: string, owed: map<Key, Due>)
    requires Inv(w, owed)
    ensures Follows(w, EnsureBoth(w, agent), owed)
    ensures EnsureBoth(w, agent).life != For(0) ==> Ready(EnsureBoth(w, agent).books, agent)
  {
    EnsureKeeps(w, CommissionPool, owed);
    EnsureKeeps(Ensure(w, CommissionPool), AgentCommission(agent), owed);
    ExtendsThen(w.books, Ensure(w, CommissionPool).books, EnsureBoth(w, agent).books);
  }

  // ---------------------------------------------------------------- the saga, call by call

  /** Books that differ, for the key, at most by its hold as proposed. */
  lemma {:induction false} HeldAt(w: World, s: L.State, k: Key, p: Payload, owed: map<Key, Due>)
    requires At(w, k, owed) && Proposes(p, k, owed) && Extends(w.books, s)
    requires HoldId(k) in s.transfers && s.transfers[HoldId(k)] == HoldTransfer(p)
    requires HoldId(k) in w.books.transfers ==> s.transfers[HoldId(k)] == w.books.transfers[HoldId(k)]
    requires SameRecord(w.books, s, PostId(k)) && SameRecord(w.books, s, ClawbackId(k))
    requires forall e :: Logged(w.books.journal, e) ==> Logged(s.journal, e)
    ensures At(w.(books := s), k, owed) && PostId(k) !in s.transfers
  {
  }

  /** A placed hold: new, or the same one replayed while it is still pending. */
  lemma {:induction false} HoldAgrees(w: World, k: Key, p: Payload, owed: map<Key, Due>)
    requires Inv(w, owed) && Proposes(p, k, owed) && L.Hold(w.books, HoldId(k), HoldTransfer(p)).1.Ok?
    ensures var op := L.DoHold(HoldId(k), HoldTransfer(p));
            && Follows(w, Do(w, op), owed)
            && var s := L.Step(w.books, op);
               HoldId(k) in s.transfers && s.transfers[HoldId(k)] == HoldTransfer(p) && PostId(k) !in s.transfers
  {
    hide L.Hold, Landed, Reversed, WellKept, SameRecord;
    var op := L.DoHold(HoldId(k), HoldTransfer(p));
    assert At(w, k, owed);
    HoldRecorded(w.books, k, p);
    StepFrame(w.books, op, PostId(k));
    StepFrame(w.books, op, ClawbackId(k));
    StepLogs(w.books, op);
    StepExtends(w.books, op);
    HeldAt(w, L.Step(w.books, op), k, p, owed);
    DoKeeps(w, op, k, owed);
  }

  lemma {:induction false} HoldRecorded(s: L.State, k: Key, p: Payload)
    requires L.Hold(s, HoldId(k), HoldTransfer(p)).1.Ok?
    ensures var t := L.Hold(s, HoldId(k), HoldTransfer(p)).0;
            && HoldId(k) in t.transfers && t.transfers[HoldId(k)] == HoldTransfer(p)
            && (HoldId(k) in s.transfers ==> s.transfers[HoldId(k)] == HoldTransfer(p))
  {
    hide L.Pair, L.CheckBoth;
  }

  lemma {:induction false} PostAgrees(w: World, k: Key, p: Payload, owed: map<Key, Due>)
    requires Inv(w, owed) && PostId(k) !in w.books.transfers
    requires HoldId(k) in w.books.transfers && w.books.transfers[HoldId(k)] == HoldTransfer(p)
    requires L.Post(w.books, HoldId(k), PostId(k), p.amount).1.Ok?
    ensures var op := L.DoPost(HoldId(k), PostId(k), p.amount);
            && Follows(w, Do(w, op), owed)
            && PostId(k) in L.Step(w.books, op).transfers
            && L.Step(w.books, op).transfers[PostId(k)] == HoldTransfer(p).(pending := false)
  {
    hide L.Post, Landed, WellKept, SameRecord, Reversed;
    var op := L.DoPost(HoldId(k), PostId(k), p.amount);
    assert At(w, k, owed);
    PostLands(w, k, p, owed);
    StepFrame(w.books, op, ClawbackId(k));
    PostedAt(w, L.Step(w.books, op), k, p, owed);
    DoKeeps(w, op, k, owed);
  }

  lemma {:induction false} PostLands(w: World, k: Key, p: Payload, owed: map<Key, Due>)
    requires WellKept(w.books) && At(w, k, owed) && PostId(k) !in w.books.transfers
    requires HoldId(k) in w.books.transfers && w.books.transfers[HoldId(k)] == HoldTransfer(p)
    requires L.Post(w.books, HoldId(k), PostId(k), p.amount).1.Ok?
    ensures var s := L.Post(w.books, HoldId(k), PostId(k), p.amount).0;
            Landed(s, k) && s.transfers[PostId(k)] == HoldTransfer(p).(pending := false) && s.accounts == w.books.accounts
  {
    assert ClosedAt(w.books, HoldId(k));
    NothingMoved(w.books, PostId(k));
  }

  /** Books that differ, for the key, only by a landed post. */
  lemma {:induction false} PostedAt(w: World, s: L.State, k: Key, p: Payload, owed: map<Key, Due>)
    requires At(w, k, owed) && PostId(k) !in w.books.transfers && Landed(s, k) && SameRecord(w.books, s, ClawbackId(k))
    requires HoldId(k) in w.books.transfers && w.books.transfers[HoldId(k)] == HoldTransfer(p)
    requires s.transfers[PostId(k)] == HoldTransfer(p).(pending := false) && s.accounts == w.books.accounts
    ensures At(w.(books := s), k, owed) && PostId(k) in s.transfers
  {
  }

  lemma {:induction false} VoidAgrees(w: World, k: Key, owed: map<Key, Due>)
    requires Inv(w, owed) && PostId(k) !in w.books.transfers
    ensures Follows(w, Do(w, L.DoVoid(HoldId(k))), owed)
  {
    var op := L.DoVoid(HoldId(k));
    assert At(w, k, owed);
    StepFrame(w.books, op, PostId(k));
    StepFrame(w.books, op, ClawbackId(k));
    DoKeeps(w, op, k, owed);
  }

  lemma {:induction false} PendingPays(w: World, id: TransferId, owed: map<Key, Due>)
    requires Inv(w, owed) && id in w.books.transfers && w.books.transfers[id].pending
    ensures w.books.transfers[id].amount > 0
  {
    assert ClosedAt(w.books, id);
  }

  lemma {:induction false} PostAndMarkKeeps(w: World, e: Earner, p: Payload, env: Env, owed: map<Key, Due>)
    requires Inv(w, owed) && Proposes(p, KeyFor(e, p), owed)
    requires w.life != For(0) ==>
               && Ready(w.books, p.agent)
               && PostId(KeyFor(e, p)) !in w.books.transfers
               && HoldId(KeyFor(e, p)) in w.books.transfers
               && w.books.transfers[HoldId(KeyFor(e, p))] == HoldTransfer(p)
    ensures Follows(w, PostAndMark(w, e, p, env).0, owed)
  {
    hide Inv, Landed;
    var k := KeyFor(e, p);
    if w.life != For(0) {
      PendingPays(w, HoldId(k), owed);
      if L.Post(w.books, HoldId(k), PostId(k), p.amount).1.Ok? {
        var w1 := Do(w, L.DoPost(HoldId(k), PostId(k), p.amount));
        PostAgrees(w, k, p, owed);
        SaveKeeps(w1, RecordFor(e, p, env), env.markFault(p.level), owed);
      } else {
        var w1 := Do(w, L.DoVoid(HoldId(k)));
        VoidAgrees(w, k, owed);
        EraseKeeps(w1, k, owed);
      }
    }
  }

  lemma {:induction false} SagaKeeps(w: World, e: Earner, p: Payload, env: Env, owed: map<Key, Due>)
    requires Inv(w, owed) && Proposes(p, KeyFor(e, p), owed) && (w.life != For(0) ==> Ready(w.books, p.agent))
    ensures Follows(w, Saga(w, e, p, env).0, owed)
  {
    var k := KeyFor(e, p);
    var held := L.Hold(w.books, HoldId(k), HoldTransfer(p)).1;
    if held.Ok? {
      var w1 := Do(w, L.DoHold(HoldId(k), HoldTransfer(p)));
      HoldAgrees(w, k, p, owed);
      PostAndMarkKeeps(w1, e, p, env, owed);
      ExtendsThen(w.books, w1.books, Saga(w, e, p, env).0.books);
    } else if held.error == L.TransferIdConflict && PostId(k) in w.books.transfers {
      SaveKeeps(w, RecordFor(e, p, env), env.markFault(p.level), owed);
    }
  }

  lemma {:induction false} AccrueOneKeeps(w: World, e: Earner, p: Payload, env: Env, owed: map<Key, Due>)
    requires Inv(w, owed) && Proposes(p, KeyFor(e, p), owed) && p.agent == e.agent
    ensures Follows(w, AccrueOne(w, e, p, env).0, owed)
  {
    hide Inv, EnsureBoth, Saga;
    EnsureBothKeeps(w, e.agent, owed);
    SagaKeeps(EnsureBoth(w, e.agent), e, p, env, owed);
    ExtendsThen(w.books, EnsureBoth(w, e.agent).books, Saga(EnsureBoth(w, e.agent), e, p, env).0.books);
  }

  /** The request proposes, at every level with a rate, what `owed` says. */
  ghost predicate Steady(req: Request, env: Env, owed: map<Key, Due>)
  {
    forall i :: 0 <= i < |req.earners| && i + 1 in env.rates ==>
      Proposes(PayloadAt(req, env, i), KeyFor(req.earners[i], PayloadAt(req, env, i)), owed)
  }

  /** What the loop does at index `i`. */
  function LevelAt(w: World, req: Request, env: Env, i: nat): (World, bool)
    requires i < |req.earners|
  {
    if i + 1 in env.rates then AccrueOne(w, req.earners[i], PayloadAt(req, env, i), env) else (w, true)
  }

  lemma {:induction false} AccrueFromUnfolds(w: World, req: Request, env: Env, i: nat)
    requires i < |req.earners|
    ensures AccrueFrom(w, req, env, i)
         == if LevelAt(w, req, env, i).1 then AccrueFrom(LevelAt(w, req, env, i).0, req, env, i + 1) else LevelAt(w, req, env, i)
  {
  }

  lemma {:induction false} LevelKeeps(w: World, req: Request, env: Env, i: nat, owed: map<Key, Due>)
    requires Inv(w, owed) && Steady(req, env, owed) && i < |req.earners|
    ensures Follows(w, LevelAt(w, req, env, i).0, owed)
  {
    if i + 1 in env.rates { AccrueOneKeeps(w, req.earners[i], PayloadAt(req, env, i), env, owed); }
  }

  lemma {:induction false} AccrueFromKeeps(w: World, req: Request, env: Env, i: nat, owed: map<Key, Due>)
    requires Inv(w, owed) && Steady(req, env, owed) && i <= |req.earners|
    ensures Follows(w, AccrueFrom(w, req, env, i).0, owed)
    decreases |req.earners| - i
  {
    if i < |req.earners| {
      AccrueFromUnfolds(w, req, env, i);
      LevelKeeps(w, req, env, i, owed);
      var w1 := LevelAt(w, req, env, i).0;
      AccrueFromKeeps(w1, req, env, i + 1, owed);
      ExtendsThen(w.books, w1.books, AccrueFrom(w1, req, env, i + 1).0.books);
    }
  }

  /** The accounts Accrue opens before it funds the pool. */
  function Prepared(w: World, req: Request): World
    requires req.earners != []
  {
    EnsureBoth(Ensure(w, CommissionTreasury), req.earners[0].agent)
  }

  lemma {:induction false} PreparedKeeps(w: World, req: Request, owed: map<Key, Due>)
    requires Inv(w, owed) && req.earners != []
    ensures Follows(w, Prepared(w, req), owed)
  {
    EnsureKeeps(w, CommissionTreasury, owed);
    EnsureBothKeeps(Ensure(w, CommissionTreasury), req.earners[0].agent, owed);
    ExtendsThen(w.books, Ensure(w, CommissionTreasury).books, Prepared(w, req).books);
  }

  lemma {:induction false} AccrueKeeps(w: World, req: Request, env: Env, owed: map<Key, Due>)
    requires Inv(w, owed) && Steady(req, env, owed)
    ensures Follows(w, Accrue(w, req, env).0, owed)
  {
    if !Refused(req, env.rates) {
      var total := Total(req, env.rates);
      var w1 := Prepared(w, req);
      PreparedKeeps(w, req, owed);
      var op := L.DoDirect(FundId(req, total), FundTransfer(total));
      AsideKeeps(w1, op, owed);
      AccrueFromKeeps(Do(w1, op), req, env, 0, owed);
      ExtendsThen(w.books, w1.books, Do(w1, op).books);
      ExtendsThen(w.books, Do(w1, op).books, AccrueFrom(Do(w1, op), req, env, 0).0.books);
    }
  }

  // ---------------------------------------------------------------- clawback

  /** The record is, or was, stored: its post landed. */
  predicate Seen(s: L.State, r: Record, owed: map<Key, Due>)
  {
    PostId(KeyOf(r)) in s.transfers && !s.transfers[PostId(KeyOf(r))].pending && Proposes(r.payload, KeyOf(r), owed)
  }

  /** The reversal transfer lands, or one is in place already. */
  lemma {:induction false} ReversalLands(w: World, r: Record, owed: map<Key, Due>)
    requires WellKept(w.books) && At(w, KeyOf(r), owed) && Proposes(r.payload, KeyOf(r), owed)
    requires var d := L.Direct(w.books, ClawbackId(KeyOf(r)), ReversalTransfer(r.payload)).1;
             d.Ok? || d.error == L.TransferIdConflict
    ensures var k := KeyOf(r);
            var s := L.Step(w.books, L.DoDirect(ClawbackId(k), ReversalTransfer(r.payload)));
            && Reversed(s, k)
            && (k in owed ==> s.transfers[ClawbackId(k)].debit == AgentCommission(owed[k].agent)
                              && s.transfers[ClawbackId(k)].amount == owed[k].amount)
  {
    var k := KeyOf(r);
    if ClawbackId(k) !in w.books.transfers { NothingMoved(w.books, ClawbackId(k)); }
  }

  lemma {:induction false} ReversalAgrees(w: World, r: Record, owed: map<Key, Due>)
    requires Inv(w, owed) && Seen(w.books, r, owed)
    requires var d := L.Direct(w.books, ClawbackId(KeyOf(r)), ReversalTransfer(r.payload)).1;
             d.Ok? || d.error == L.TransferIdConflict
    ensures var op := L.DoDirect(ClawbackId(KeyOf(r)), ReversalTransfer(r.payload));
            Follows(w, Do(w, op), owed) && ClawbackId(KeyOf(r)) in L.Step(w.books, op).transfers
  {
    hide L.Direct, Reversed, Landed, WellKept, SameRecord;
    var k := KeyOf(r);
    var op := L.DoDirect(ClawbackId(k), ReversalTransfer(r.payload));
    assert At(w, k, owed);
    ReversalLands(w, r, owed);
    StepFrame(w.books, op, HoldId(k));
    StepFrame(w.books, op, PostId(k));
    StepExtends(w.books, op);
    StepLogs(w.books, op);
    ReversedAt(w, L.Step(w.books, op), r, owed);
    DoKeeps(w, op, k, owed);
  }

  /** Books that differ, for the record's key, only by a landed reversal. */
  lemma {:induction false} ReversedAt(w: World, s: L.State, r: Record, owed: map<Key, Due>)
    requires var k := KeyOf(r);
             && At(w, k, owed) && PostId(k) in w.books.transfers && Reversed(s, k)
             && SameRecord(w.books, s, HoldId(k)) && SameRecord(w.books, s, PostId(k)) && Extends(w.books, s)
             && (k in owed ==> s.transfers[ClawbackId(k)].debit == AgentCommission(owed[k].agent)
                               && s.transfers[ClawbackId(k)].amount == owed[k].amount)
    requires forall e :: Logged(w.books.journal, e) ==> Logged(s.journal, e)
    ensures At(w.(books := s), KeyOf(r), owed)
  {
  }

  lemma {:induction false} ClawOneKeeps(w: World, r: Record, fault: bool, owed: map<Key, Due>)
    requires Inv(w, owed) && Seen(w.books, r, owed)
    ensures Follows(w, ClawOne(w, r, fault).0, owed)
  {
    var k := KeyOf(r);
    var w1 := EnsureBoth(w, r.payload.agent);
    EnsureBothKeeps(w, r.payload.agent, owed);
    assert SettledAt(w.books, w1.books, PostId(k));
    var d := L.Direct(w1.books, ClawbackId(k), ReversalTransfer(r.payload)).1;
    if d.Ok? || d.error == L.TransferIdConflict {
      var w2 := Do(w1, L.DoDirect(ClawbackId(k), ReversalTransfer(r.payload)));
      ReversalAgrees(w1, r, owed);
      assert SettledAt(w1.books, w2.books, PostId(k));
      SaveKeeps(w2, r.(status := ClawedBack), fault, owed);
      ExtendsThen(w.books, w1.books, w2.books);
    }
  }

  lemma {:induction false} SeenLater(w: World, v: World, listed: seq<Record>, owed: map<Key, Due>)
    requires Extends(w.books, v.books)
    requires forall i :: 0 <= i < |listed| ==> Seen(w.books, listed[i], owed)
    ensures forall i :: 0 <= i < |listed| ==> Seen(v.books, listed[i], owed)
  {
    forall i | 0 <= i < |listed| ensures Seen(v.books, listed[i], owed) {
      assert SettledAt(w.books, v.books, PostId(KeyOf(listed[i])));
    }
  }

  lemma {:induction false} ClawFromKeeps(w: World, tenant: string, reference: string, listed: seq<Record>, fault: Key -> bool,
                                         i: nat, owed: map<Key, Due>)
    requires Inv(w, owed) && i <= |listed| && forall j :: 0 <= j < |listed| ==> Seen(w.books, listed[j], owed)
    ensures Follows(w, ClawFrom(w, tenant, reference, listed, fault, i).0, owed)
    decreases |listed| - i
  {
    if i < |listed| {
      if Targeted(listed[i], tenant, reference) {
        var (w1, ok) := ClawOne(w, listed[i], fault(KeyOf(listed[i])));
        ClawOneKeeps(w, listed[i], fault(KeyOf(listed[i])), owed);
        SeenLater(w, w1, listed, owed);
        ClawFromKeeps(w1, tenant, reference, listed, fault, i + 1, owed);
        ExtendsThen(w.books, w1.books, ClawFrom(w1, tenant, reference, listed, fault, i + 1).0.books);
      } else {
        ClawFromKeeps(w, tenant, reference, listed, fault, i + 1, owed);
      }
    }
  }

  /** The listing a clawback works on: stored records, as they are. */
  predicate AllStored(w: World, listed: seq<Record>)
  {
    forall i :: 0 <= i < |listed| ==> KeyOf(listed[i]) in w.records && w.records[KeyOf(listed[i])] == listed[i]
  }

  lemma {:induction false} ClawbackKeeps(w: World, tenant: string, reference: string, listed: seq<Record>, fault: Key -> bool,
                                         owed: map<Key, Due>)
    requires Inv(w, owed) && AllStored(w, listed)
    ensures Follows(w, Clawback(w, tenant, reference, listed, fault).0, owed)
  {
    forall i | 0 <= i < |listed| ensures Seen(w.books, listed[i], owed) { assert At(w, KeyOf(listed[i]), owed); }
    ClawFromKeeps(w, tenant, reference, listed, fault, 0, owed);
  }

  // ---------------------------------------------------------------- runs

  ghost predicate Admissible(w: World, op: Op, owed: map<Key, Due>)
  {
    match op
    case DoAccrue(req, env) => Steady(req, env, owed)
    case DoClawback(_, _, listed, _) => AllStored(w, listed)
    case DoForget(_) => true
    case DoElsewhere(op) => Disciplined(w.books, op) && forall k :: !Touches(op, k)
  }

  datatype Call = Call(op: Op, life: Life)

  function Run(w: World, calls: seq<Call>): World
  {
    if calls == [] then w
    else Step(Run(w, calls[..|calls| - 1]), calls[|calls| - 1].op, calls[|calls| - 1].life)
  }

  ghost predicate AdmissibleRun(w: World, calls: seq<Call>, owed: map<Key, Due>)
  {
    calls == [] || (AdmissibleRun(w, calls[..|calls| - 1], owed)
                    && Admissible(Run(w, calls[..|calls| - 1]), calls[|calls| - 1].op, owed))
  }

  const START := World(map[], L.INITIAL, Forever)

  lemma {:induction false} LifeKeeps(w: World, life: Life, owed: map<Key, Due>)
    requires Inv(w, owed)
    ensures Follows(w, w.(life := life), owed)
  {
    forall k ensures At(w.(life := life), k, owed) { assert At(w, k, owed); }
  }

  lemma {:induction false} StepFollows(w: World, op: Op, life: Life, owed: map<Key, Due>)
    requires Inv(w, owed) && Admissible(w, op, owed)
    ensures Follows(w, Step(w, op, life), owed)
  {
    var v := w.(life := life);
    LifeKeeps(w, life, owed);
    match op
    case DoAccrue(req, env) => AccrueKeeps(v, req, env, owed);
    case DoClawback(tenant, reference, listed, fault) => ClawbackKeeps(v, tenant, reference, listed, fault, owed);
    case DoForget(k) => EraseKeeps(v, k, owed);
    case DoElsewhere(lop) => AsideKeeps(v, lop, owed);
  }

  lemma {:induction false} RunFollows(w: World, calls: seq<Call>, owed: map<Key, Due>)
    requires Inv(w, owed) && AdmissibleRun(w, calls, owed)
    ensures Follows(w, Run(w, calls), owed)
  {
    if calls != [] {
      var n := |calls| - 1;
      var u := Run(w, calls[..n]);
      RunFollows(w, calls[..n], owed);
      StepFollows(u, calls[n].op, calls[n].life, owed);
      ExtendsThen(w.books, u.books, Run(w, calls).books);
    }
  }

  lemma {:induction false} StartHolds(owed: map<Key, Due>)
    ensures Inv(START, owed)
  {
    InitialWellKept();
    forall k ensures At(START, k, owed) { }
  }

  // ---------------------------------------------------------------- theorems

  /**
   Per (tenant, reference, level), over every run with arbitrary payloads: at most
   one post ever credits an agent and at most one reversal ever debits one; a
   reversal, and a stored record, exist only where the post landed; a record is
   marked clawed back only where the reversal landed.
   */
  lemma {:induction false} OncePerLevel(calls: seq<Call>, k: Key)
    requires AdmissibleRun(START, calls, map[])
    ensures var w := Run(START, calls);
            && Moves(w.books.journal, PostId(k)) <= 1 && Moves(w.books.journal, ClawbackId(k)) <= 1
            && (Moves(w.books.journal, ClawbackId(k)) == 1 ==> Reversed(w.books, k) && Moves(w.books.journal, PostId(k)) == 1)
            && (Moves(w.books.journal, PostId(k)) == 1 ==> Landed(w.books, k))
            && (k in w.records ==> Landed(w.books, k))
            && (k in w.records && w.records[k].status == ClawedBack ==> Reversed(w.books, k))
  {
    StartHolds(map[]);
    RunFollows(START, calls, map[]);
    var w := Run(START, calls);
    assert At(w, k, map[]) && OnceAt(w.books, PostId(k)) && OnceAt(w.books, ClawbackId(k));
  }

  /** Once a level's post has landed, whether or not it was clawed back, no later run credits it again or changes it. */
  lemma {:induction false} NeverCreditedAgain(w: World, later: seq<Call>, k: Key)
    requires Inv(w, map[]) && PostId(k) in w.books.transfers && AdmissibleRun(w, later, map[])
    ensures var v := Run(w, later);
            && Moves(v.books.journal, PostId(k)) == Moves(w.books.journal, PostId(k)) == 1
            && AmountMoved(v.books.journal, PostId(k)) == AmountMoved(w.books.journal, PostId(k))
            && (ClawbackId(k) in w.books.transfers ==>
                  AmountMoved(v.books.journal, ClawbackId(k)) == AmountMoved(w.books.journal, ClawbackId(k)))
  {
    RunFollows(w, later, map[]);
    var v := Run(w, later);
    assert At(w, k, map[]) && At(v, k, map[]);
    assert SettledAt(w.books, v.books, PostId(k)) && SettledAt(w.books, v.books, ClawbackId(k));
  }

  /** Where all accruals of a level agree on agent and amount, a reversal returns exactly what the post paid, from the agent it paid. */
  lemma {:induction false} ClawbackUndoesPost(calls: seq<Call>, k: Key, due: Due)
    requires AdmissibleRun(START, calls, map[k := due])
    ensures var j := Run(START, calls).books.journal;
            Moves(j, ClawbackId(k)) == 1 ==>
              && Logged(j, L.Moved(PostId(k), HoldId(k), CommissionPool, AgentCommission(due.agent), due.amount))
              && Logged(j, L.Moved(ClawbackId(k), NoTransfer, AgentCommission(due.agent), CommissionPool, due.amount))
              && AmountMoved(j, ClawbackId(k)) == AmountMoved(j, PostId(k)) == due.amount
  {
    var owed := map[k := due];
    StartHolds(owed);
    RunFollows(START, calls, owed);
    var w := Run(START, calls);
    assert At(w, k, owed) && OnceAt(w.books, ClawbackId(k));
  }

  // ---------------------------------------------------------------- replay

  /** Every level of the request the table has a rate for has landed, and its accounts are open. */
  ghost predicate AllLanded(s: L.State, req: Request, rates: map<nat, nat>)
  {
    && req.earners != []
    && CommissionTreasury in s.accounts && CommissionPool in s.accounts
    && AgentCommission(req.earners[0].agent) in s.accounts
    && forall i :: 0 <= i < |req.earners| && i + 1 in rates ==> LandedFor(s, req, i)
  }

  ghost predicate LandedFor(s: L.State, req: Request, i: nat)
    requires i < |req.earners|
  {
    var k := Key(req.earners[i].tenant, req.reference, i + 1);
    && PostId(k) in s.transfers && !s.transfers[PostId(k)].pending
    && HoldId(k) in s.transfers && !s.transfers[HoldId(k)].pending
    && AgentCommission(req.earners[i].agent) in s.accounts
  }

  /** A level that has landed is never posted again, whatever the payload. */
  lemma {:induction false} LandedLevelMovesNothing(w: World, req: Request, env: Env, i: nat)
    requires i < |req.earners| && i + 1 in env.rates && LandedFor(w.books, req, i) && CommissionPool in w.books.accounts
    ensures AccrueOne(w, req.earners[i], PayloadAt(req, env, i), env).0.books == w.books
  {
  }

  lemma {:induction false} LandedLevelsMoveNothing(w: World, req: Request, env: Env, i: nat)
    requires i <= |req.earners| && AllLanded(w.books, req, env.rates)
    ensures AccrueFrom(w, req, env, i).0.books == w.books
    decreases |req.earners| - i
  {
    if i < |req.earners| {
      AccrueFromUnfolds(w, req, env, i);
      if i + 1 in env.rates { LandedLevelMovesNothing(w, req, env, i); }
      LandedLevelsMoveNothing(LevelAt(w, req, env, i).0, req, env, i + 1);
    }
  }

  /**
   Replaying a reference whose levels have landed, with any amount, rates, pack
   and clock, does to the ledger exactly what its funding transfer does: nothing
   when that total was funded before, a second funding when it was not.
   */
  lemma {:induction false} ReplayOnlyFunds(w: World, req: Request, env: Env)
    requires AllLanded(w.books, req, env.rates) && w.life == Forever
    ensures Accrue(w, req, env).0.books
         == if Refused(req, env.rates) then w.books
            else L.Direct(w.books, FundId(req, Total(req, env.rates)), FundTransfer(Total(req, env.rates))).0
  {
    if !Refused(req, env.rates) {
      var total := Total(req, env.rates);
      assert Prepared(w, req) == w;
      var op := L.DoDirect(FundId(req, total), FundTransfer(total));
      if L.Direct(w.books, FundId(req, total), FundTransfer(total)).1.Ok? {
        FundFrame(w.books, req, env.rates, total);
        LandedLevelsMoveNothing(Do(w, op), req, env, 0);
      }
    }
  }

  lemma {:induction false} FundFrame(s: L.State, req: Request, rates: map<nat, nat>, total: nat)
    requires AllLanded(s, req, rates)
    ensures AllLanded(L.Step(s, L.DoDirect(FundId(req, total), FundTransfer(total))), req, rates)
  {
    var t := L.Step(s, L.DoDirect(FundId(req, total), FundTransfer(total)));
    assert t.accounts == s.accounts;
    forall i | 0 <= i < |req.earners| && i + 1 in rates ensures LandedFor(t, req, i) {
      assert LandedFor(s, req, i);
    }
  }


  // ---------------------------------------------------------------- completed accruals

  function KeyAt(req: Request, i: nat): Key
    requires i < |req.earners|
  {
    Key(req.earners[i].tenant, req.reference, i + 1)
  }

  /** A saga that answered with a record left its post on the ledger. */
  lemma {:induction false} SagaAnswered(w: World, e: Earner, p: Payload, env: Env)
    requires Inv(w, map[]) && w.life == Forever && Saga(w, e, p, env).1
    ensures Saga(w, e, p, env).0.life == Forever && PostId(KeyFor(e, p)) in Saga(w, e, p, env).0.books.transfers
  {
    hide Inv, L.Hold, L.Post, L.Void, Extends;
    var k := KeyFor(e, p);
    if L.Hold(w.books, HoldId(k), HoldTransfer(p)).1.Ok? {
      HoldAgrees(w, k, p, map[]);
      var w1 := Do(w, L.DoHold(HoldId(k), HoldTransfer(p)));
      assert Saga(w, e, p, env) == PostAndMark(w1, e, p, env);
      PostAgrees(w1, k, p, map[]);
    }
  }

  /** So did a level that answered, and its accounts are open. */
  lemma {:induction false} OneAnswered(w: World, e: Earner, p: Payload, env: Env)
    requires Inv(w, map[]) && w.life == Forever && p.agent == e.agent && AccrueOne(w, e, p, env).1
    ensures var v := AccrueOne(w, e, p, env).0;
            v.life == Forever && PostId(KeyFor(e, p)) in v.books.transfers && Ready(v.books, e.agent)
  {
    assert At(w, KeyFor(e, p), map[]);
    var w1 := EnsureBoth(w, e.agent);
    if AccrueOne(w, e, p, env) == Saga(w1, e, p, env) {
      EnsureBothKeeps(w, e.agent, map[]);
      SagaAnswered(w1, e, p, env);
      SagaKeeps(w1, e, p, env, map[]);
    }
  }

  lemma {:induction false} LevelAnswered(w: World, req: Request, env: Env, i: nat)
    requires Inv(w, map[]) && w.life == Forever && i < |req.earners| && LevelAt(w, req, env, i).1
    ensures var v := LevelAt(w, req, env, i).0;
            v.life == Forever && Inv(v, map[]) && Extends(w.books, v.books) && (i + 1 in env.rates ==> LandedFor(v.books, req, i))
  {
    LevelKeeps(w, req, env, i, map[]);
    if i + 1 in env.rates {
      OneAnswered(w, req.earners[i], PayloadAt(req, env, i), env);
      KeyForLevel(req, env, i);
      AnsweredFor(LevelAt(w, req, env, i).0, req, i);
    }
  }

  lemma {:induction false} KeyForLevel(req: Request, env: Env, i: nat)
    requires i < |req.earners| && i + 1 in env.rates
    ensures KeyFor(req.earners[i], PayloadAt(req, env, i)) == KeyAt(req, i)
    ensures PayloadAt(req, env, i).agent == req.earners[i].agent
  {
  }

  lemma {:induction false} AnsweredFor(v: World, req: Request, i: nat)
    requires Inv(v, map[]) && i < |req.earners|
    requires PostId(KeyAt(req, i)) in v.books.transfers && Ready(v.books, req.earners[i].agent)
    ensures LandedFor(v.books, req, i)
  {
    assert At(v, KeyAt(req, i), map[]);
  }

  lemma {:induction false} LandedLater(s: L.State, t: L.State, req: Request, i: nat)
    requires i < |req.earners| && LandedFor(s, req, i) && Extends(s, t)
    ensures LandedFor(t, req, i)
  {
    assert SettledAt(s, t, PostId(KeyAt(req, i))) && SettledAt(s, t, HoldId(KeyAt(req, i)));
  }

  lemma {:induction false} LevelsAnswered(w: World, req: Request, env: Env, i: nat)
    requires Inv(w, map[]) && w.life == Forever && i <= |req.earners| && AccrueFrom(w, req, env, i).1
    ensures var v := AccrueFrom(w, req, env, i).0;
            && Inv(v, map[]) && Extends(w.books, v.books)
            && forall j :: i <= j < |req.earners| && j + 1 in env.rates ==> LandedFor(v.books, req, j)
    decreases |req.earners| - i
  {
    hide Inv, Extends, AccrueFrom, LandedFor;
    AccrueFromKeeps(w, req, env, i, map[]);
    if i < |req.earners| {
      AccrueFromUnfolds(w, req, env, i);
      LevelAnswered(w, req, env, i);
      var w1 := LevelAt(w, req, env, i).0;
      LevelsAnswered(w1, req, env, i + 1);
      if i + 1 in env.rates { LandedLater(w1.books, AccrueFrom(w, req, env, i).0.books, req, i); }
    }
  }

  /** The request's funding transfer stands on the ledger. */
  predicate Funded(s: L.State, req: Request, total: nat)
    requires req.earners != []
  {
    FundId(req, total) in s.transfers && s.transfers[FundId(req, total)] == FundTransfer(total)
  }

  lemma {:induction false} FundedThen(w: World, req: Request, total: nat)
    requires Inv(w, map[]) && w.life == Forever && req.earners != []
    requires L.Direct(w.books, FundId(req, total), FundTransfer(total)).1.Ok?
    ensures var v := Do(w, L.DoDirect(FundId(req, total), FundTransfer(total)));
            && Follows(w, v, map[]) && v.life == Forever && Funded(v.books, req, total)
  {
    AsideKeeps(w, L.DoDirect(FundId(req, total), FundTransfer(total)), map[]);
  }

  lemma {:induction false} CompletedLanded(w: World, req: Request, env: Env)
    requires Inv(w, map[]) && w.life == Forever && Accrue(w, req, env).1
    ensures var v := Accrue(w, req, env).0;
            && Inv(v, map[]) && !Refused(req, env.rates)
            && AllLanded(v.books, req, env.rates) && Funded(v.books, req, Total(req, env.rates))
  {
    var total := Total(req, env.rates);
    var w1 := Prepared(w, req);
    PreparedKeeps(w, req, map[]);
    PreparedReady(w, req);
    FundedThen(w1, req, total);
    var w2 := Do(w1, L.DoDirect(FundId(req, total), FundTransfer(total)));
    assert Accrue(w, req, env) == AccrueFrom(w2, req, env, 0);
    LevelsAnswered(w2, req, env, 0);
    assert SettledAt(w2.books, AccrueFrom(w2, req, env, 0).0.books, FundId(req, total));
  }

  lemma {:induction false} PreparedReady(w: World, req: Request)
    requires Inv(w, map[]) && w.life == Forever && req.earners != []
    ensures var v := Prepared(w, req);
            && v.life == Forever && CommissionTreasury in v.books.accounts && Ready(v.books, req.earners[0].agent)
  {
    EnsureKeeps(w, CommissionTreasury, map[]);
    var w1 := Ensure(w, CommissionTreasury);
    EnsureBothKeeps(w1, req.earners[0].agent, map[]);
  }

  lemma {:induction false} AllLandedLater(s: L.State, t: L.State, req: Request, rates: map<nat, nat>)
    requires AllLanded(s, req, rates) && Extends(s, t)
    ensures AllLanded(t, req, rates)
  {
    forall i | 0 <= i < |req.earners| && i + 1 in rates ensures LandedFor(t, req, i) { LandedLater(s, t, req, i); }
  }

  /**
   A completed accrual can be replayed at any later time (after expiry, deletion
   of records, clawbacks, crashes): the same request at the same rates leaves the
   whole ledger as it is, whatever the clock, the pack label and the faults.
   */
  lemma {:induction false} CompletedReplays(w: World, req: Request, env: Env, later: seq<Call>, again: Env)
    requires Inv(w, map[]) && w.life == Forever && Accrue(w, req, env).1
    requires AdmissibleRun(Accrue(w, req, env).0, later, map[]) && again.rates == env.rates
    ensures var v := Run(Accrue(w, req, env).0, later).(life := Forever);
            Accrue(v, req, again).0.books == v.books
  {
    CompletedLanded(w, req, env);
    var w1 := Accrue(w, req, env).0;
    RunFollows(w1, later, map[]);
    var v := Run(w1, later).(life := Forever);
    AllLandedLater(w1.books, v.books, req, env.rates);
    assert SettledAt(w1.books, v.books, FundId(req, Total(req, env.rates)));
    ReplayOnlyFunds(v, req, again);
  }

  /** A replay that computes another, not yet funded total moves that total out of the treasury once more. */
  lemma {:induction false} OtherTotalFundsAgain(w: World, req: Request, env: Env)
    requires Inv(w, map[]) && w.life == Forever && AllLanded(w.books, req, env.rates) && !Refused(req, env.rates)
    requires w.books.accounts[CommissionTreasury] == w.books.accounts[CommissionPool] == COMMISSION_ACCOUNT
    requires FundId(req, Total(req, env.rates)) !in w.books.transfers
    ensures var total := Total(req, env.rates);
            var v := Accrue(w, req, env).0;
            && L.BalanceOf(v.books, CommissionTreasury).debitsPosted == L.BalanceOf(w.books, CommissionTreasury).debitsPosted + total
            && L.BalanceOf(v.books, CommissionPool).creditsPosted == L.BalanceOf(w.books, CommissionPool).creditsPosted + total
  {
    ReplayOnlyFunds(w, req, env);
  }
}
