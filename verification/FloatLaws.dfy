/** What every run of float movements and sweeps keeps, with crashes anywhere. */
module FloatLaws {
  import opened Prelude
  import opened Ids
  import L = Ledger
  import opened LedgerLaws
  import opened Floats

  // ---------------------------------------------------------------- invariant

  /** Where a movement takes its money: a top-up from the treasury, a debit from the agent. */
  function PaidFrom(m: Movement): AccountId
  {
    match m.kind
    case Topup => FloatTreasury
    case Debit => AgentFloat(m.agent)
  }

  /** Where it brings it: a top-up to the agent, a debit to the treasury. */
  function PaidTo(m: Movement): AccountId
  {
    match m.kind
    case Topup => AgentFloat(m.agent)
    case Debit => FloatTreasury
  }

  /** The post landed: the amount moved once, from and to the right accounts, and the hold is consumed. */
  ghost predicate Landed(s: L.State, m: Movement)
  {
    && HoldId(m) in s.transfers && PostId(m) in s.transfers
    && !s.transfers[HoldId(m)].pending
    && s.transfers[HoldId(m)].debit == PaidFrom(m) && s.transfers[HoldId(m)].credit == PaidTo(m)
    && s.transfers[PostId(m)]
         == L.Transfer(PaidFrom(m), PaidTo(m), 100, if m.kind == Topup then 4 else 5, m.amount, false)
    && Moves(s.journal, PostId(m)) == 1 && AmountMoved(s.journal, PostId(m)) == m.amount
    && Logged(s.journal, L.Moved(PostId(m), HoldId(m), PaidFrom(m), PaidTo(m), m.amount))
  }

  ghost predicate Unmoved(s: L.State, m: Movement)
  {
    PostId(m) !in s.transfers && Moves(s.journal, PostId(m)) == 0
  }

  /** The hold still stands for the full amount. */
  predicate Standing(s: L.State, m: Movement)
  {
    HoldId(m) in s.transfers && s.transfers[HoldId(m)] == HoldTransfer(m)
  }

  predicate Spent(s: L.State, m: Movement)
  {
    HoldId(m) in s.transfers && !s.transfers[HoldId(m)].pending
  }

  /**
   What a movement's status says about the ledger. On a `strict` ledger, where
   nobody debits float accounts except through holds, no movement is ever voided.
   */
  ghost predicate Agrees(s: L.State, m: Movement, strict: bool)
  {
    match m.status
    case Posted => Landed(s, m)
    case Voided => !strict && Unmoved(s, m) && Spent(s, m)
    case Pending => Landed(s, m) || (Unmoved(s, m) && (Standing(s, m) || (!strict && Spent(s, m))))
  }

  ghost predicate At(w: World, k: Key, strict: bool)
  {
    if k in w.movements then KeyOf(w.movements[k]) == k && Agrees(w.books, w.movements[k], strict)
    else FloatPost(k.kind, k.reference) !in w.books.transfers
  }

  predicate IsFloat(a: AccountId)
  {
    a.AgentFloat? || a.FloatTreasury?
  }

  ghost predicate CapHeld(s: L.State, a: AccountId)
  {
    IsFloat(a) ==> (a in s.accounts ==> s.accounts[a] == FLOAT_ACCOUNT) && HeldWithinCap(s, a)
  }

  ghost predicate Inv(w: World, strict: bool)
  {
    && WellKept(w.books)
    && (forall k :: At(w, k, strict))
    && (strict ==> forall a :: CapHeld(w.books, a))
  }

  // ---------------------------------------------------------------- one durable call

  predicate Touches(op: L.Op, k: Key)
  {
    Names(op, FloatPending(k.kind, k.reference)) || Names(op, FloatPost(k.kind, k.reference))
  }

  /** Accounts an operation opens are float accounts with the float flags, or other accounts. */
  predicate OpensWell(op: L.Op)
  {
    op.DoCreate? ==> forall i :: 0 <= i < |op.batch| ==> IsFloat(op.batch[i].id) ==> op.batch[i].account == FLOAT_ACCOUNT
  }

  predicate DebitsFloat(op: L.Op)
  {
    op.DoDirect? && IsFloat(op.t.debit)
  }

  lemma {:induction false} ElsewhereAt(w: World, op: L.Op, k: Key, strict: bool)
    requires At(w, k, strict) && !Touches(op, k)
    ensures At(w.(books := L.Step(w.books, op)), k, strict)
  {
    StepFrame(w.books, op, FloatPending(k.kind, k.reference));
    StepFrame(w.books, op, FloatPost(k.kind, k.reference));
  }

  lemma {:induction false} OpenedWell(s: L.State, batch: seq<L.AccountSpec>, a: AccountId)
    requires OpensWell(L.DoCreate(batch)) && IsFloat(a) && (a in s.accounts ==> s.accounts[a] == FLOAT_ACCOUNT)
    ensures var t := L.OpenAll(s, batch); a in t.accounts ==> t.accounts[a] == FLOAT_ACCOUNT
  {
    if batch != [] {
      var n := |batch| - 1;
      assert forall i :: 0 <= i < n ==> batch[..n][i] == batch[i];
      OpenedWell(s, batch[..n], a);
    }
  }

  lemma {:induction false} StepCapHeld(s: L.State, op: L.Op, a: AccountId)
    requires WellKept(s) && Disciplined(s, op) && OpensWell(op) && !DebitsFloat(op) && CapHeld(s, a)
    ensures CapHeld(L.Step(s, op), a)
  {
    if IsFloat(a) {
      StepKeepsCap(s, op, a);
      if op.DoCreate? { OpenedWell(s, op.batch, a); }
    }
  }

  /** A ledger call keeps the invariant when it keeps it at the one movement it touches. */
  lemma {:induction false} DoKeeps(w: World, op: L.Op, k: Key, strict: bool)
    requires Inv(w, strict) && Disciplined(w.books, op) && OpensWell(op) && (strict ==> !DebitsFloat(op))
    requires forall other :: other != k ==> !Touches(op, other)
    requires At(w.(books := L.Step(w.books, op)), k, strict)
    ensures Inv(Do(w, op), strict) && Inv(w.(books := L.Step(w.books, op)), strict)
  {
    var v := w.(books := L.Step(w.books, op));
    StepKeeps(w.books, op);
    forall other ensures At(v, other, strict) && At(Do(w, op), other, strict) {
      if other != k { ElsewhereAt(w, op, other, strict); }
      assert At(w, other, strict);
    }
    if strict {
      forall a ensures CapHeld(v.books, a) && CapHeld(Do(w, op).books, a) {
        assert CapHeld(w.books, a);
        StepCapHeld(w.books, op, a);
      }
    }
  }

  lemma {:induction false} SaveKeeps(w: World, m: Movement, fault: bool, strict: bool)
    requires Inv(w, strict) && (w.life != For(0) && !fault ==> Agrees(w.books, m, strict))
    ensures Inv(Save(w, m, fault), strict)
  {
    var v := Save(w, m, fault);
    forall k ensures At(v, k, strict) { assert At(w, k, strict); }
  }

  lemma {:induction false} OpenKeeps(w: World, a: AccountId, strict: bool)
    requires Inv(w, strict)
    ensures Inv(Do(w, OpenAccount(a)), strict)
  {
    var k := Key(Topup, "");
    ElsewhereAt(w, OpenAccount(a), k, strict) by { assert At(w, k, strict); }
    DoKeeps(w, OpenAccount(a), k, strict);
  }

  // ---------------------------------------------------------------- the saga, call by call

  /** Nothing recorded yet: the hold stands once placed, or replayed. */
  lemma {:induction false} HoldAgrees(w: World, m: Movement, strict: bool)
    requires Inv(w, strict) && KeyOf(m) !in w.movements
    requires L.Hold(w.books, HoldId(m), HoldTransfer(m)).1.Ok?
    ensures var s := L.Step(w.books, L.DoHold(HoldId(m), HoldTransfer(m)));
            Inv(Do(w, L.DoHold(HoldId(m), HoldTransfer(m))), strict) && Standing(s, m) && PostId(m) !in s.transfers
  {
    var op := L.DoHold(HoldId(m), HoldTransfer(m));
    assert At(w, KeyOf(m), strict);
    StepFrame(w.books, op, PostId(m));
    DoKeeps(w, op, KeyOf(m), strict);
  }

  lemma {:induction false} UnmovedWhenAbsent(s: L.State, m: Movement)
    requires WellKept(s) && PostId(m) !in s.transfers
    ensures Unmoved(s, m)
  {
    NothingMoved(s, PostId(m));
  }

  lemma {:induction false} PostLands(s: L.State, m: Movement)
    requires WellKept(s) && Standing(s, m) && Unmoved(s, m) && L.Post(s, HoldId(m), PostId(m), m.amount).1.Ok?
    ensures Landed(L.Step(s, L.DoPost(HoldId(m), PostId(m), m.amount)), m)
  {
    assert ClosedAt(s, HoldId(m));
    NothingMoved(s, PostId(m));
  }

  /** A post the ledger accepts: from a standing hold it lands, on a landed one it replays. */
  lemma {:induction false} PostAgrees(w: World, m: Movement, strict: bool)
    requires Inv(w, strict) && Known(w, m) && m.status == Pending
    requires L.Post(w.books, HoldId(m), PostId(m), m.amount).1.Ok?
    ensures var op := L.DoPost(HoldId(m), PostId(m), m.amount);
            Inv(Do(w, op), strict) && Landed(L.Step(w.books, op), m)
  {
    var op := L.DoPost(HoldId(m), PostId(m), m.amount);
    var k := KeyOf(m);
    assert At(w, k, strict);
    if Landed(w.books, m) {
      assert L.Step(w.books, op) == w.books;
    } else {
      PostLands(w.books, m);
      var n := w.movements[k];
      assert n.status == Pending;
      assert Landed(L.Step(w.books, op), n);
    }
    DoKeeps(w, op, k, strict);
  }

  /** Releasing the hold of a movement that has not moved. */
  lemma {:induction false} VoidAgrees(w: World, m: Movement, strict: bool)
    requires Inv(w, strict) && !strict && L.Void(w.books, HoldId(m)).1.Ok?
    requires KeyOf(m) in w.movements ==> Known(w, m)
    ensures var op := L.DoVoid(HoldId(m));
            && Inv(Do(w, op), strict) && Spent(L.Step(w.books, op), m)
            && (KeyOf(m) in w.movements ==> Unmoved(L.Step(w.books, op), m))
  {
    var op := L.DoVoid(HoldId(m));
    assert At(w, KeyOf(m), strict);
    StepFrame(w.books, op, PostId(m));
    DoKeeps(w, op, KeyOf(m), strict);
  }

  /** Releasing the hold when its record was never written. */
  lemma {:induction false} UndoAgrees(w: World, m: Movement, strict: bool)
    requires Inv(w, strict) && KeyOf(m) !in w.movements
    ensures Inv(Do(w, L.DoVoid(HoldId(m))), strict)
  {
    var op := L.DoVoid(HoldId(m));
    assert At(w, KeyOf(m), strict);
    StepFrame(w.books, op, PostId(m));
    DoKeeps(w, op, KeyOf(m), strict);
  }

  /** On a strict ledger an accepted hold can always be posted. */
  lemma {:induction false} StandingPosts(w: World, m: Movement)
    requires Inv(w, true) && Standing(w.books, m)
    ensures L.Post(w.books, HoldId(m), PostId(m), m.amount).1.Ok?
  {
    var t := HoldTransfer(m);
    assert ClosedAt(w.books, HoldId(m));
    assert CapHeld(w.books, t.debit) && CapHeld(w.books, t.credit);
    HoldCanPost(w.books, HoldId(m), PostId(m));
  }

  // ---------------------------------------------------------------- operations

  /** `m` is a stored movement, read now or earlier: only its status may have changed since. */
  predicate Known(w: World, m: Movement)
  {
    KeyOf(m) in w.movements && w.movements[KeyOf(m)].(status := m.status) == m
  }

  lemma {:induction false} SettleKeeps(w: World, m: Movement, f: Faults, strict: bool)
    requires Inv(w, strict) && m.status == Pending && (w.life != For(0) ==> Known(w, m) && Standing(w.books, m))
    ensures Inv(Settle(w, m, f).0, strict)
  {
    if w.life != For(0) {
      if L.Post(w.books, HoldId(m), PostId(m), m.amount).1.Ok? {
        PostAgrees(w, m, strict);
        SaveKeeps(Do(w, L.DoPost(HoldId(m), PostId(m), m.amount)), m.(status := Posted), f.mark, strict);
      } else {
        if strict { StandingPosts(w, m); }
        VoidAgrees(w, m, strict);
        SaveKeeps(Do(w, L.DoVoid(HoldId(m))), m.(status := Voided), f.voidMark, strict);
      }
    }
  }

  lemma {:induction false} PlaceKeeps(w: World, m: Movement, f: Faults, strict: bool)
    requires Inv(w, strict) && KeyOf(m) !in w.movements && m.status == Pending
    ensures Inv(Place(w, m, f).0, strict)
  {
    if L.Hold(w.books, HoldId(m), HoldTransfer(m)).1.Ok? && w.life != For(0) {
      HoldAgrees(w, m, strict);
      var w1 := Do(w, L.DoHold(HoldId(m), HoldTransfer(m)));
      UnmovedWhenAbsent(w1.books, m);
      SaveKeeps(w1, m, f.record, strict);
      if f.record {
        UndoAgrees(Save(w1, m, true), m, strict);
      } else {
        SettleKeeps(Save(w1, m, false), m, f, strict);
      }
    }
  }

  lemma {:induction false} OpenFloatKeeps(w: World, agent: string, fault: bool, strict: bool)
    requires Inv(w, strict)
    ensures Inv(Open(w, agent, fault), strict)
  {
    OpenKeeps(w, AgentFloat(agent), strict);
    EnlistKeeps(Do(w, OpenAccount(AgentFloat(agent))), agent, fault, strict);
  }

  lemma {:induction false} MoveKeeps(w: World, kind: MovementKind, agent: string, amount: nat, reference: string, f: Faults, strict: bool)
    requires Inv(w, strict)
    ensures Inv(Move(w, kind, agent, amount, reference, f).0, strict)
  {
    if reference != "" && Key(kind, reference) !in w.movements {
      OpenFloatKeeps(w, agent, f.account, strict);
      var w1 := Open(w, agent, f.account);
      OpenKeeps(w1, FloatTreasury, strict);
      PlaceKeeps(EnsureTreasury(w1), Movement(kind, reference, agent, amount, Pending), f, strict);
    }
  }

  lemma {:induction false} EnlistKeeps(w: World, agent: string, fault: bool, strict: bool)
    requires Inv(w, strict)
    ensures Inv(Enlist(w, agent, fault), strict)
  {
    forall k ensures At(Enlist(w, agent, fault), k, strict) { assert At(w, k, strict); }
  }

  lemma {:induction false} SweepOneKeeps(w: World, m: Movement, f: Faults, strict: bool)
    requires Inv(w, strict) && Known(w, m)
    ensures var v := SweepOne(w, m, f);
            Inv(v, strict) && forall n :: Known(w, n) ==> Known(v, n)
  {
    hide L.Post, WellKept, CapHeld;
    if m.status == Pending && w.life != For(0) {
      assert At(w, KeyOf(m), strict);
      if L.Post(w.books, HoldId(m), PostId(m), m.amount).1.Ok? {
        PostAgrees(w, m, strict);
        SaveKeeps(Do(w, L.DoPost(HoldId(m), PostId(m), m.amount)), m.(status := Posted), f.mark, strict);
      } else if L.Void(w.books, HoldId(m)).1.Ok? {
        if strict { StandingPosts(w, m); }
        VoidAgrees(w, m, strict);
        SaveKeeps(Do(w, L.DoVoid(HoldId(m))), m.(status := Voided), f.voidMark, strict);
      }
    }
  }

  /** A listing taken at some earlier moment. */
  predicate Listed(w: World, listed: seq<Movement>)
  {
    forall i :: 0 <= i < |listed| ==> Known(w, listed[i])
  }

  lemma {:induction false} SweepKeeps(w: World, listed: seq<Movement>, f: Key -> Faults, strict: bool)
    requires Inv(w, strict) && Listed(w, listed)
    ensures var v := Sweep(w, listed, f);
            Inv(v, strict) && forall n :: Known(w, n) ==> Known(v, n)
  {
    if listed != [] {
      var n := |listed| - 1;
      assert forall i :: 0 <= i < n ==> listed[..n][i] == listed[i];
      SweepKeeps(w, listed[..n], f, strict);
      SweepOneKeeps(Sweep(w, listed[..n], f), listed[n], f(KeyOf(listed[n])), strict);
    }
  }

  // ---------------------------------------------------------------- runs

  /** Ledger traffic of other services: it names no float id and opens no float account its own way. */
  ghost predicate Foreign(s: L.State, op: L.Op, strict: bool)
  {
    && Disciplined(s, op) && OpensWell(op) && (strict ==> !DebitsFloat(op))
    && forall k :: !Touches(op, k)
  }

  ghost predicate Admissible(w: World, op: Op, strict: bool)
  {
    match op
    case DoMove(_, _, _, _, _) => true
    case DoSweep(listed, _) => Listed(w, listed)
    case DoElsewhere(op) => Foreign(w.books, op, strict)
  }

  datatype Call = Call(op: Op, life: Life)

  function Run(w: World, calls: seq<Call>): World
  {
    if calls == [] then w
    else Step(Run(w, calls[..|calls| - 1]), calls[|calls| - 1].op, calls[|calls| - 1].life)
  }

  ghost predicate AdmissibleRun(w: World, calls: seq<Call>, strict: bool)
  {
    calls == [] || (AdmissibleRun(w, calls[..|calls| - 1], strict)
                    && Admissible(Run(w, calls[..|calls| - 1]), calls[|calls| - 1].op, strict))
  }

  const START := World(map[], {}, L.INITIAL, Forever)

  lemma {:induction false} StepKeepsInv(w: World, op: Op, life: Life, strict: bool)
    requires Inv(w, strict) && Admissible(w, op, strict)
    ensures Inv(Step(w, op, life), strict)
  {
    var v := w.(life := life);
    forall k ensures At(v, k, strict) { assert At(w, k, strict); }
    match op
    case DoMove(kind, agent, amount, reference, f) => MoveKeeps(v, kind, agent, amount, reference, f, strict);
    case DoSweep(listed, f) =>
      assert forall i :: 0 <= i < |listed| ==> Known(w, listed[i]) ==> Known(v, listed[i]);
      SweepKeeps(v, listed, f, strict);
    case DoElsewhere(lop) =>
      var k := Key(Topup, "");
      assert At(v, k, strict) && !Touches(lop, k);
      ElsewhereAt(v, lop, k, strict);
      DoKeeps(v, lop, k, strict);
  }

  lemma {:induction false} RunKeepsInv(calls: seq<Call>, strict: bool)
    requires AdmissibleRun(START, calls, strict)
    ensures Inv(Run(START, calls), strict)
  {
    if calls == [] {
      InitialWellKept();
    } else {
      var n := |calls| - 1;
      RunKeepsInv(calls[..n], strict);
      StepKeepsInv(Run(START, calls[..n]), calls[n].op, calls[n].life, strict);
    }
  }

  /**
   Across crashes, sweeps and any other ledger traffic: a movement marked posted
   moved exactly its amount, once, from the treasury to the agent for a top-up
   and from the agent to the treasury for a debit; a voided one moved nothing;
   without a record nothing moved; and nothing moves twice.
   */
  lemma {:induction false} StatusMeansMoney(calls: seq<Call>, k: Key)
    requires AdmissibleRun(START, calls, false)
    ensures var w := Run(START, calls);
            var hold, post := FloatPending(k.kind, k.reference), FloatPost(k.kind, k.reference);
            && Moves(w.books.journal, post) <= 1
            && (k !in w.movements ==> Moves(w.books.journal, post) == 0)
            && (k in w.movements ==>
                  var m := w.movements[k];
                  && m.kind == k.kind && m.reference == k.reference
                  && (m.status == Voided ==> Moves(w.books.journal, post) == 0 && Spent(w.books, m))
                  && (m.status == Posted ==> Moves(w.books.journal, post) == 1)
                  && (Moves(w.books.journal, post) == 1 ==>
                        && AmountMoved(w.books.journal, post) == m.amount
                        && (m.kind == Topup ==> Logged(w.books.journal, L.Moved(post, hold, FloatTreasury, AgentFloat(m.agent), m.amount)))
                        && (m.kind == Debit ==> Logged(w.books.journal, L.Moved(post, hold, AgentFloat(m.agent), FloatTreasury, m.amount)))))
  {
    hide Run, AdmissibleRun;
    RunKeepsInv(calls, false);
    var w := Run(START, calls);
    assert At(w, k, false) && OnceAt(w.books, FloatPost(k.kind, k.reference));
    hide Inv;
  }

  /** Where float accounts are debited only through holds, no hold is ever refused its post: nothing is voided. */
  lemma {:induction false} NothingVoided(calls: seq<Call>, k: Key)
    requires AdmissibleRun(START, calls, true) && k in Run(START, calls).movements
    ensures Run(START, calls).movements[k].status != Voided
  {
    RunKeepsInv(calls, true);
    assert At(Run(START, calls), k, true);
  }

  // ---------------------------------------------------------------- recovery

  lemma {:induction false} SweepOneFinishes(w: World, m: Movement)
    requires Inv(w, true) && Known(w, m) && w.life == Forever
    ensures var v := SweepOne(w, m, NO_FAULTS);
            && v.life == Forever && v.movements.Keys == w.movements.Keys
            && (m.status == Pending ==> v.movements[KeyOf(m)].status == Posted)
            && forall k :: k in w.movements && w.movements[k].status == Posted ==> v.movements[k].status == Posted
  {
    assert At(w, KeyOf(m), true);
    if m.status == Pending && Standing(w.books, m) { StandingPosts(w, m); }
  }

  lemma {:induction false} SweepFinishes(w: World, listed: seq<Movement>)
    requires Inv(w, true) && Listed(w, listed) && w.life == Forever
    ensures var v := Sweep(w, listed, _ => NO_FAULTS);
            && Inv(v, true) && v.life == Forever && v.movements.Keys == w.movements.Keys
            && (forall i :: 0 <= i < |listed| && listed[i].status == Pending ==> v.movements[KeyOf(listed[i])].status == Posted)
            && (forall k :: k in w.movements && w.movements[k].status == Posted ==> v.movements[k].status == Posted)
  {
    if listed != [] {
      var n := |listed| - 1;
      assert forall i :: 0 <= i < n ==> listed[..n][i] == listed[i];
      SweepFinishes(w, listed[..n]);
      SweepKeeps(w, listed[..n], _ => NO_FAULTS, true);
      var u := Sweep(w, listed[..n], _ => NO_FAULTS);
      SweepOneKeeps(u, listed[n], NO_FAULTS, true);
      SweepOneFinishes(u, listed[n]);
      assert Sweep(w, listed, _ => NO_FAULTS) == SweepOne(u, listed[n], NO_FAULTS);
    }
  }

  /** After any run on such a ledger, one undisturbed sweep of all movements leaves every one of them posted. */
  lemma {:induction false} SweepPostsAll(calls: seq<Call>, listed: seq<Movement>)
    requires AdmissibleRun(START, calls, true)
    requires Listed(Run(START, calls), listed)
    requires forall k :: k in Run(START, calls).movements ==> Run(START, calls).movements[k] in listed
    ensures var v := Step(Run(START, calls), DoSweep(listed, _ => NO_FAULTS), Forever);
            && v.movements.Keys == Run(START, calls).movements.Keys
            && forall k :: k in v.movements ==> v.movements[k].status == Posted && Landed(v.books, v.movements[k])
  {
    hide Run, Sweep, WellKept, CapHeld;
    RunKeepsInv(calls, true);
    var w := Run(START, calls).(life := Forever);
    forall k ensures At(w, k, true) { assert At(Run(START, calls), k, true); }
    assert forall i :: 0 <= i < |listed| ==> Known(Run(START, calls), listed[i]) ==> Known(w, listed[i]);
    SweepFinishes(w, listed);
    var v := Sweep(w, listed, _ => NO_FAULTS);
    forall k | k in v.movements ensures v.movements[k].status == Posted && Landed(v.books, v.movements[k]) {
      var m := w.movements[k];
      assert At(w, k, true) && At(v, k, true);
      assert m in listed;
      var i :| 0 <= i < |listed| && listed[i] == m;
    }
  }

  // ---------------------------------------------------------------- replies

  lemma {:induction false} PlacePosts(w: World, m: Movement, f: Faults, strict: bool)
    requires Inv(w, strict) && w.life == Forever && KeyOf(m) !in w.movements && m.status == Pending
    ensures var (v, reply) := Place(w, m, f);
            && (reply.Some? ==> reply == Some(m.(status := Posted)) && KeyOf(m) in v.movements
                                && v.movements[KeyOf(m)] == reply.value && Landed(v.books, reply.value))
            && (strict && f == NO_FAULTS ==> (reply.Some? <==> L.Hold(w.books, HoldId(m), HoldTransfer(m)).1.Ok?))
  {
    PlaceKeeps(w, m, f, strict);
    if L.Hold(w.books, HoldId(m), HoldTransfer(m)).1.Ok? && !f.record {
      HoldAgrees(w, m, strict);
      var w1 := Do(w, L.DoHold(HoldId(m), HoldTransfer(m)));
      UnmovedWhenAbsent(w1.books, m);
      SaveKeeps(w1, m, f.record, strict);
      var w2 := Save(w1, m, false);
      assert Place(w, m, f) == Settle(w2, m, f);
      if strict { StandingPosts(w2, m); }
      assert At(Settle(w2, m, f).0, KeyOf(m), strict);
    }
  }

  /**
   What a caller may conclude: a reply to a new reference is the requested
   movement, stored as posted, its money moved to the agent by a top-up and
   from the agent by a debit; a reply to a known one is the stored
   movement and changes nothing.
   */
  lemma {:induction false} MoveReply(w: World, kind: MovementKind, agent: string, amount: nat, reference: string, f: Faults)
    requires Inv(w, false) && w.life == Forever
    ensures var k := Key(kind, reference);
            var (v, reply) := Move(w, kind, agent, amount, reference, f);
            && (reference == "" ==> reply.None? && v == w)
            && (reference != "" && k in w.movements ==> reply == Some(w.movements[k]) && v == w)
            && (k !in w.movements && reply.Some? ==>
                  && reply.value == Movement(kind, reference, agent, amount, Posted)
                  && k in v.movements && v.movements[k] == reply.value && Landed(v.books, reply.value)
                  && Logged(v.books.journal,
                            match kind
                            case Topup => L.Moved(FloatPost(kind, reference), FloatPending(kind, reference), FloatTreasury, AgentFloat(agent), amount)
                            case Debit => L.Moved(FloatPost(kind, reference), FloatPending(kind, reference), AgentFloat(agent), FloatTreasury, amount)))
  {
    hide Logged;
    if reference != "" && Key(kind, reference) !in w.movements {
      OpenKeeps(w, AgentFloat(agent), false);
      var w1 := Open(w, agent, f.account);
      EnlistKeeps(Do(w, OpenAccount(AgentFloat(agent))), agent, f.account, false);
      OpenKeeps(w1, FloatTreasury, false);
      PlacePosts(EnsureTreasury(w1), Movement(kind, reference, agent, amount, Pending), f, false);
    }
  }
}
