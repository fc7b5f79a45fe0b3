/**
 Runs from the start in which the NIP service breaks a promise: an idempotency key is
 dispatched twice within a window, after a purge or a reversal of an older transfer
 under the same key, and refunds exceed their payout when the cap sum wraps around.
 */
module NipReuse {
  import opened Prelude
  import opened Ids
  import L = Ledger
  import opened Nip
  import opened NipLaws
  import opened NipWindow
  import opened NipOutcomes

  function Calls(now: int, session: SessionId, outcome: Status): Env
  {
    Env(now, session, true, Heard(outcome), _ => NotReceived, _ => Heard(Reversed), false, false, _ => false, _ => _ => false)
  }

  const REQ := Request(Payout, "k", 1, "a", "b", "", "")

  function Final(session: SessionId, at: int, outcome: Status): Transfer
  {
    Transfer(session, REQ, outcome, true, at + TTL)
  }

  /** A payout under a key whose slot is free or expired, with nothing going wrong. */
  lemma {:induction false} PayoutLands(w: World, req: Request, env: Env)
    requires Inv(w, Loose) && Plain(w.books) && Unused(w, env.session) && w.clock <= env.now
    requires Proceeds(w, req, env) && req.purpose == Payout && Smooth(env)
    ensures var op := DoPayout(req, env);
            var v := Step(w, op, Forever);
            && Admissible(w, op) && Inv(v, Loose) && Plain(v.books)
            && v == Delivered(w.(clock := env.now, life := Forever), Landed(req, env), env.now, v.books)
  {
    StepKeepsInv(w, Call(DoPayout(req, env), Forever), Loose);
    LifeKeeps(w, Forever, env.now, Loose);
    PayoutSettles(w.(clock := env.now, life := Forever), req, env);
  }

  /**
   Within the window of a key's last dispatch, an undisturbed payout under the key is
   a second dispatch exactly when the key's slot is empty or holds an expired transfer.
   */
  lemma {:induction false} SecondDispatchIff(w: World, req: Request, env: Env)
    requires Inv(w, Loose) && Plain(w.books) && Unused(w, env.session) && w.clock <= env.now
    requires !Malformed(req) && req.purpose == Payout && Smooth(env) && Spaced(w.log, req.key)
    requires LastFor(w.log, req.key).Some? && env.now <= LastFor(w.log, req.key).value.expiresAt
    ensures !Spaced(Step(w, DoPayout(req, env), Forever).log, req.key)
       <==> SlotFree(w, req.key, env.now)
  {
    if Proceeds(w, req, env) { PayoutLands(w, req, env); }
  }

  /**
   The exact condition for a double dispatch: while a key is in its window, a
   payout after a maintenance call is dispatched again if and only if that call
   emptied the key's slot or put an expired transfer there.
   */
  lemma {:induction false} DispatchedAgainIff(w: World, op: Op, life: Life, req: Request, env: Env)
    requires Inv(w, Loose) && Admissible(w, op) && Maintenance(op) && Window(w, req.key)
    requires LastFor(w.log, req.key).Some? && TimeOf(w, op) <= env.now <= LastFor(w.log, req.key).value.expiresAt
    requires !Malformed(req) && req.purpose == Payout && Smooth(env)
    requires Plain(Step(w, op, life).books) && Unused(Step(w, op, life), env.session)
    ensures !Spaced(Step(Step(w, op, life), DoPayout(req, env), Forever).log, req.key)
       <==> Frees(w, op, life, req.key, env.now)
  {
    StepKeepsInv(w, Call(op, life), Loose);
    MaintenanceIdle(w, op, life);
    FreesIff(w, op, life, req.key, env.now);
    SecondDispatchIff(Step(w, op, life), req, env);
  }

  lemma {:induction false} RunThen(w: World, calls: seq<Call>, c: Call)
    ensures Run(w, calls + [c]) == Step(Run(w, calls), c.op, c.life)
    ensures AdmissibleRun(w, calls) && Admissible(Run(w, calls), c.op) ==> AdmissibleRun(w, calls + [c])
  {
    assert (calls + [c])[..|calls|] == calls;
  }

  lemma {:induction false} LandedIs(now: int, session: SessionId, outcome: Status)
    ensures Smooth(Calls(now, session, outcome))
    ensures Landed(REQ, Calls(now, session, outcome)) == Final(session, now, outcome)
  {
  }

  // ---------------------------------------------------------------- a key used again after expiry

  /** The first transfer ended with `outcome`; its key was used again after it expired. */
  predicate UsedAgain(w: World, outcome: Status)
  {
    && w.clock == TTL + 1 && w.rail == map["1" := outcome, "2" := Success]
    && w.recs == map[Idem("k") := Final("2", TTL + 1, Success), Sess("1") := Final("1", 0, outcome),
                     Sess("2") := Final("2", TTL + 1, Success)]
    && w.log == Sent(Sent(Unsent, Dispatch("1", "k", 0, TTL)), Dispatch("2", "k", TTL + 1, TTL + 1 + TTL))
  }

  lemma {:induction false} FirstPayout(w: World, outcome: Status)
    requires Inv(w, Loose) && Plain(w.books) && w.recs == map[] && w.rail == map[] && w.log == Unsent && w.clock == 0
    ensures var op := DoPayout(REQ, Calls(0, "1", outcome));
            var v := Step(w, op, Forever);
            && Admissible(w, op) && Inv(v, Loose) && Plain(v.books)
            && v.recs == map[Idem("k") := Final("1", 0, outcome), Sess("1") := Final("1", 0, outcome)]
            && v.rail == map["1" := outcome] && v.clock == 0 && v.log == Sent(Unsent, Dispatch("1", "k", 0, TTL))
  {
    LandedIs(0, "1", outcome);
    PayoutLands(w, REQ, Calls(0, "1", outcome));
  }

  /** The second transfer, after the first expired. */
  lemma {:induction false} SecondPayout(w: World, outcome: Status)
    requires Inv(w, Loose) && Plain(w.books) && w.clock == 0
    requires w.recs == map[Idem("k") := Final("1", 0, outcome), Sess("1") := Final("1", 0, outcome)]
    requires w.rail == map["1" := outcome] && w.log == Sent(Unsent, Dispatch("1", "k", 0, TTL))
    ensures var op := DoPayout(REQ, Calls(TTL + 1, "2", Success));
            var v := Step(w, op, Forever);
            Admissible(w, op) && Inv(v, Loose) && Plain(v.books) && UsedAgain(v, outcome)
  {
    LandedIs(TTL + 1, "2", Success);
    PayoutLands(w, REQ, Calls(TTL + 1, "2", Success));
    BothStored(outcome);
  }

  lemma {:induction false} BothStored(outcome: Status)
    ensures map[Idem("k") := Final("1", 0, outcome), Sess("1") := Final("1", 0, outcome)]
              [Idem("k") := Final("2", TTL + 1, Success)][Sess("2") := Final("2", TTL + 1, Success)]
         == map[Idem("k") := Final("2", TTL + 1, Success), Sess("1") := Final("1", 0, outcome),
                Sess("2") := Final("2", TTL + 1, Success)]
    ensures (map["1" := outcome])["2" := Success] == map["1" := outcome, "2" := Success]
  {
  }

  lemma {:induction false} UseAgain(outcome: Status) returns (calls: seq<Call>)
    ensures AdmissibleRun(START, calls) && Inv(Run(START, calls), Loose) && Plain(Run(START, calls).books)
    ensures UsedAgain(Run(START, calls), outcome)
  {
    var c1, c2 := Call(DoPayout(REQ, Calls(0, "1", outcome)), Forever), Call(DoPayout(REQ, Calls(TTL + 1, "2", Success)), Forever);
    StartHolds(Loose);
    FirstPayout(START, outcome);
    SecondPayout(Step(START, c1.op, Forever), outcome);
    assert Run(START, []) == START && AdmissibleRun(START, []);
    RunThen(START, [], c1);
    RunThen(START, [] + [c1], c2);
    calls := [] + [c1] + [c2];
  }

  /** Where the live slot was emptied or given to an expired transfer, the key is dispatched again at once. */
  lemma {:induction false} ThirdPayout(w: World)
    requires Inv(w, Loose) && Plain(w.books) && Unused(w, "3") && w.clock == TTL + 1
    requires w.log == Sent(Sent(Unsent, Dispatch("1", "k", 0, TTL)), Dispatch("2", "k", TTL + 1, TTL + 1 + TTL))
    requires Idem("k") !in w.recs || w.recs[Idem("k")].expiresAt == TTL
    ensures var op := DoPayout(REQ, Calls(TTL + 1, "3", Success));
            Admissible(w, op) && !Spaced(Step(w, op, Forever).log, "k")
  {
    LandedIs(TTL + 1, "3", Success);
    assert LastFor(w.log.past, "k") == Some(w.log.past.last) && Spaced(w.log.past, "k");
    assert LastFor(w.log, "k") == Some(w.log.last) && Spaced(w.log, "k");
    SecondDispatchIff(w, REQ, Calls(TTL + 1, "3", Success));
  }

  lemma {:induction false} EndsTwice(calls: seq<Call>, c: Call, outcome: Status)
    requires AdmissibleRun(START, calls) && UsedAgain(Run(START, calls), outcome)
    requires Admissible(Run(START, calls), c.op) && c.life == Forever
    requires var v := Step(Run(START, calls), c.op, Forever);
             && Inv(v, Loose) && Plain(v.books) && Unused(v, "3") && v.clock == TTL + 1 && v.log == Run(START, calls).log
             && (Idem("k") !in v.recs || v.recs[Idem("k")].expiresAt == TTL)
    ensures var all := calls + [c] + [Call(DoPayout(REQ, Calls(TTL + 1, "3", Success)), Forever)];
            AdmissibleRun(START, all) && !Spaced(Run(START, all).log, "k")
  {
    ThirdPayout(Step(Run(START, calls), c.op, Forever));
    RunThen(START, calls, c);
    RunThen(START, calls + [c], Call(DoPayout(REQ, Calls(TTL + 1, "3", Success)), Forever));
  }

  lemma {:induction false} NotThird(log: Dispatches)
    requires log.Sent? && log.past.Sent? && log.past.past == Unsent && log.last.session != "3" && log.past.last.session != "3"
    ensures SentCount(log, "3") == 0
  {
    assert SentCount(log.past, "3") == SentCount(Unsent, "3") == 0;
  }

  /** The purge, finding the first transfer expired and final, removes the live record of the second. */
  lemma {:induction false} PurgeRemoves(w: World, listed: seq<Transfer>)
    requires w.life == Forever && listed == [Final("2", TTL + 1, Success), Final("1", 0, Success)]
    ensures Purge(w, listed, TTL + 1) == Delete(w, Idem("k"))
  {
    assert listed[1..] == [listed[1]] && listed[1..][1..] == [];
    assert !Purged(listed[0], TTL + 1) && Purged(listed[1], TTL + 1);
    assert Purge(w, listed, TTL + 1) == Purge(w, listed[1..], TTL + 1);
    assert Purge(w, listed[1..], TTL + 1) == Purge(Delete(w, Idem("k")), listed[1..][1..], TTL + 1) == Delete(w, Idem("k"));
  }

  lemma {:induction false} BothListed(w: World, listed: seq<Transfer>)
    requires UsedAgain(w, Success) && listed == [Final("2", TTL + 1, Success), Final("1", 0, Success)]
    ensures Listing(w, listed)
  {
    assert listed[0] == w.recs[Sess("2")] && listed[1] == w.recs[Sess("1")];
  }

  /** Neither transfer has the third session. */
  lemma {:induction false} ThirdUnused(v: World)
    requires v.log.Sent? && v.log.past.Sent? && v.log.past.past == Unsent
    requires v.log.last.session != "3" && v.log.past.last.session != "3" && "3" !in v.rail
    requires forall c :: c in v.recs ==> v.recs[c].session != "3" && v.recs[c].req == REQ
    ensures Unused(v, "3")
  {
    NotThird(v.log);
  }

  lemma {:induction false} PurgeTakesLive(w: World)
    requires Inv(w, Loose) && Plain(w.books) && UsedAgain(w, Success)
    ensures var op := DoPurge([Final("2", TTL + 1, Success), Final("1", 0, Success)], TTL + 1);
            var v := Step(w, op, Forever);
            && Admissible(w, op) && Inv(v, Loose) && Plain(v.books) && Unused(v, "3")
            && v.clock == TTL + 1 && v.log == w.log && Idem("k") !in v.recs
  {
    hide Inv, Listing, Purge, Unused, Plain;
    var listed := [Final("2", TTL + 1, Success), Final("1", 0, Success)];
    BothListed(w, listed);
    StepKeepsInv(w, Call(DoPurge(listed, TTL + 1), Forever), Loose);
    PurgeRemoves(w.(clock := TTL + 1, life := Forever), listed);
    ThirdUnused(Step(w, DoPurge(listed, TTL + 1), Forever));
  }

  /** The reversal of the failed first transfer puts it back into the slot of the second. */
  lemma {:induction false} ReversalTakesLive(w: World)
    requires Inv(w, Loose) && Plain(w.books) && UsedAgain(w, Failed)
    ensures var op := DoReversal("1", Calls(TTL + 1, "", Success));
            var v := Step(w, op, Forever);
            && Admissible(w, op) && Inv(v, Loose) && Plain(v.books) && Unused(v, "3")
            && v.clock == TTL + 1 && v.log == w.log && Idem("k") in v.recs && v.recs[Idem("k")].expiresAt == TTL
  {
    hide Inv, Reverse, Unused, Plain;
    var op := DoReversal("1", Calls(TTL + 1, "", Success));
    StepKeepsInv(w, Call(op, Forever), Loose);
    ReversalOverwrites(w.(clock := TTL + 1, life := Forever), op.env);
    ThirdUnused(Step(w, op, Forever));
  }

  lemma {:induction false} ReversalOverwrites(w: World, env: Env)
    requires UsedAgain(w, Failed) && w.life == Forever && env == Calls(TTL + 1, "", Success)
    ensures var t, v := Final("1", 0, Reversed), Reverse(w, "1", env);
            v.recs == w.recs[Sess("1") := t][Idem("k") := t] && v.rail == w.rail["1" := Reversed] && v == w.(recs := v.recs, rail := v.rail)
  {
    assert w.recs[Sess("1")] == Final("1", 0, Failed);
  }

  lemma {:induction false} ReusedKeyDispatchedTwice() returns (calls: seq<Call>)
    ensures AdmissibleRun(START, calls) && !Spaced(Run(START, calls).log, "k")
  {
    var before := UseAgain(Success);
    var c := Call(DoPurge([Final("2", TTL + 1, Success), Final("1", 0, Success)], TTL + 1), Forever);
    PurgeTakesLive(Run(START, before));
    EndsTwice(before, c, Success);
    calls := before + [c] + [Call(DoPayout(REQ, Calls(TTL + 1, "3", Success)), Forever)];
  }

  lemma {:induction false} ReversedKeyDispatchedTwice() returns (calls: seq<Call>)
    ensures AdmissibleRun(START, calls) && !Spaced(Run(START, calls).log, "k")
  {
    var before := UseAgain(Failed);
    var c := Call(DoReversal("1", Calls(TTL + 1, "", Success)), Forever);
    ReversalTakesLive(Run(START, before));
    EndsTwice(before, c, Failed);
    calls := before + [c] + [Call(DoPayout(REQ, Calls(TTL + 1, "3", Success)), Forever)];
  }

  // ---------------------------------------------------------------- refunds past their payout

  /**
   A refund sent through Payout meets no cap check. Executed by the rail, it keeps
   the bound of its payout exactly when it fits.
   */
  lemma {:induction false} UncheckedRefundIff(w: World, req: Request, env: Env)
    requires Inv(w, Loose) && w.life == Forever && Plain(w.books) && Unused(w, env.session)
    requires Proceeds(w, req, env) && Smooth(env) && env.dispatch.choice == Success
    requires req.purpose == Refund && Sess(req.source) in w.recs && w.recs[Sess(req.source)].req.purpose == Payout
    ensures CapAt(PayoutLocked(w, req, env), req.source, Bound) <==> Room(w, NewTransfer(req, env), Bound)
  {
    hide Inv, PayoutLocked, LegMatches, Outstanding, Proceeds;
    PayoutSettles(w, req, env);
    UnusedUnstored(w, env.session);
    DeliveredWeighs(w, Landed(req, env), env.now, PayoutLocked(w, req, env).books);
  }

  lemma {:induction false} WeightOf(rail: map<SessionId, Status>, s: SessionId, c: Slot, t: Transfer)
    ensures Weight(rail, s, Bound)(c, t)
         == if c.Sess? && t.req.purpose == Refund && t.req.source == s && !Dead(rail, t.session) then t.req.amount else 0
  {
  }

  /** An executed refund adds its amount to what is outstanding against its payout. */
  lemma {:induction false} DeliveredWeighs(w: World, t: Transfer, now: int, books: L.State)
    requires Sess(t.session) !in w.recs && (forall c :: c in w.recs ==> w.recs[c].session != t.session)
    requires t.req.purpose == Refund && t.status == Success
    ensures Outstanding(Delivered(w, t, now, books), t.req.source, Bound) == Outstanding(w, t.req.source, Bound) + t.req.amount
  {
    var v := Delivered(w, t, now, books);
    var f := Weight(v.rail, t.req.source, Bound);
    SumMapUpdate(w.recs, f, Idem(t.req.key), t);
    SumMapUpdate(w.recs[Idem(t.req.key) := t], f, Sess(t.session), t);
    SameWeights(w, v.rail, t.req.source, t.session);
    WeightOf(v.rail, t.req.source, Idem(t.req.key), t);
    WeightOf(v.rail, t.req.source, Sess(t.session), t);
    if Idem(t.req.key) in w.recs { WeightOf(v.rail, t.req.source, Idem(t.req.key), w.recs[Idem(t.req.key)]); }
    assert v.recs == w.recs[Idem(t.req.key) := t][Sess(t.session) := t];
  }

  lemma {:induction false} UnusedUnstored(w: World, r: SessionId)
    requires Inv(w, Loose) && Unused(w, r)
    ensures Sess(r) !in w.recs
  {
    assert RecAt(w, Sess(r), Loose);
  }

  /** The outcome of a session nobody has stored weighs nothing yet. */
  lemma {:induction false} SameWeights(w: World, rail: map<SessionId, Status>, s: SessionId, r: SessionId)
    requires (forall c :: c in w.recs ==> w.recs[c].session != r) && rail == w.rail[r := Success]
    ensures SumMap(w.recs, Weight(rail, s, Bound)) == SumMap(w.recs, Weight(w.rail, s, Bound))
  {
    var f, g := Weight(rail, s, Bound), Weight(w.rail, s, Bound);
    forall c | c in w.recs ensures f(c, w.recs[c]) == g(c, w.recs[c]) {
      assert Dead(rail, w.recs[c].session) <==> Dead(w.rail, w.recs[c].session);
    }
    SumMapMono(w.recs, f, g);
    SumMapMono(w.recs, g, f);
  }

  /** Two calls with nothing going wrong: a payout of one, and a refund of two sent through Payout. */
  lemma {:induction false} UncheckedRefundExceedsPayout() returns (calls: seq<Call>, last: Op)
    ensures AdmissibleRun(START, calls) && last.DoPayout? && last.req.purpose == Refund
    ensures var w := Run(START, calls);
            var v := Step(w, last, Forever);
            && Admissible(w, last) && Sess("1") in v.recs && v.recs[Sess("1")].req.purpose == Payout
            && Outstanding(v, "1", Bound) > v.recs[Sess("1")].req.amount
  {
    var c1 := Call(DoPayout(REQ, Calls(0, "1", Success)), Forever);
    StartHolds(Loose);
    FirstPayout(START, Success);
    assert Run(START, []) == START && AdmissibleRun(START, []);
    RunThen(START, [], c1);
    calls := [] + [c1];
    last := DoPayout(RefundOf("r", 2), Calls(0, "2", Success));
    UncheckedLands(Run(START, calls));
  }

  lemma {:induction false} UncheckedProceeds(w: World, req: Request, env: Env)
    requires w.recs == map[Idem("k") := Final("1", 0, Success), Sess("1") := Final("1", 0, Success)] && w.rail == map["1" := Success]
    requires w.log == Sent(Unsent, Dispatch("1", "k", 0, TTL)) && req == RefundOf("r", 2) && env == Calls(0, "2", Success)
    ensures var u := w.(clock := 0, life := Forever);
            Unused(w, "2") && Unused(u, "2") && Proceeds(u, req, env) && Smooth(env)
  {
    assert SentCount(w.log, "2") == SentCount(Unsent, "2") == 0;
  }

  lemma {:induction false} UncheckedLands(w: World)
    requires Inv(w, Loose) && Plain(w.books) && w.clock == 0
    requires w.recs == map[Idem("k") := Final("1", 0, Success), Sess("1") := Final("1", 0, Success)]
    requires w.rail == map["1" := Success] && w.log == Sent(Unsent, Dispatch("1", "k", 0, TTL))
    ensures var v := Step(w, DoPayout(RefundOf("r", 2), Calls(0, "2", Success)), Forever);
            Unused(w, "2") && Sess("1") in v.recs && v.recs[Sess("1")] == Final("1", 0, Success) && Outstanding(v, "1", Bound) >= 2
  {
    hide Inv, PayoutLocked, Outstanding, LegMatches, Proceeds, Unused, Smooth;
    var req, env := RefundOf("r", 2), Calls(0, "2", Success);
    LifeKeeps(w, Forever, 0, Loose);
    UncheckedProceeds(w, req, env);
    PayoutSettles(w.(clock := 0, life := Forever), req, env);
    WeighsAtLeast(Step(w, DoPayout(req, env), Forever), "2", "1");
  }

  function RefundOf(key: string, amount: nat): Request
  {
    Request(Refund, key, amount, "a", "b", "", "1")
  }

  function Repaid(session: SessionId, key: string, amount: nat): Transfer
  {
    Transfer(session, RefundOf(key, amount), Success, true, TTL)
  }

  /** A refund that passes the checks, with nothing going wrong. */
  lemma {:induction false} RefundLands(w: World, req: Request, listed: seq<Transfer>, env: Env)
    requires Inv(w, Loose) && Plain(w.books) && Unused(w, env.session) && Smooth(env)
    requires BoundRequest(w, req, listed) == Some(req) && Proceeds(w, req, env)
    ensures var v := Step(w, DoRefund(req, listed, env), Forever);
            && Plain(v.books)
            && v == Delivered(w.(clock := env.now, life := Forever), Landed(req, env), env.now, v.books)
  {
    LifeKeeps(w, Forever, env.now, Loose);
    PayoutSettles(w.(clock := env.now, life := Forever), req, env);
  }

  /** After a payout of one and a refund of one. */
  predicate RefundedOnce(w: World)
  {
    && w.recs == map[Idem("k") := Final("1", 0, Success), Sess("1") := Final("1", 0, Success),
                     Idem("r") := Repaid("2", "r", 1), Sess("2") := Repaid("2", "r", 1)]
    && w.rail == map["1" := Success, "2" := Success] && w.clock == 0
    && w.log == Sent(Sent(Unsent, Dispatch("1", "k", 0, TTL)), Dispatch("2", "r", 0, TTL))
  }

  lemma {:induction false} FirstPasses(w: World, listed: seq<Transfer>)
    requires w.recs == map[Idem("k") := Final("1", 0, Success), Sess("1") := Final("1", 0, Success)]
    requires listed == [Final("1", 0, Success)]
    ensures Listing(w, listed) && !AcceptedByWrap(w, RefundOf("r", 1), listed)
    ensures BoundRequest(w, RefundOf("r", 1), listed) == Some(RefundOf("r", 1))
  {
    assert listed[0] == w.recs[Sess("1")];
    assert listed[1..] == [];
    assert Refunded(listed, "1", {}) == 0;
  }

  lemma {:induction false} FirstRefund(w: World)
    requires Inv(w, Loose) && Plain(w.books) && w.clock == 0
    requires w.recs == map[Idem("k") := Final("1", 0, Success), Sess("1") := Final("1", 0, Success)]
    requires w.rail == map["1" := Success] && w.log == Sent(Unsent, Dispatch("1", "k", 0, TTL))
    ensures var op := DoRefund(RefundOf("r", 1), [Final("1", 0, Success)], Calls(0, "2", Success));
            var v := Step(w, op, Forever);
            Admissible(w, op) && Inv(v, Loose) && Plain(v.books) && RefundedOnce(v)
  {
    hide Inv, RefundFor, Listing, BoundRequest;
    var req, listed, env := RefundOf("r", 1), [Final("1", 0, Success)], Calls(0, "2", Success);
    FirstPasses(w, listed);
    StepKeepsInv(w, Call(DoRefund(req, listed, env), Forever), Loose);
    RefundLands(w, req, listed, env);
  }

  /** The refund of 2^64 - 1 passes the cap check. */
  lemma {:induction false} WrapPasses(w: World, listed: seq<Transfer>)
    requires RefundedOnce(w) && listed == [Final("1", 0, Success), Repaid("2", "r", 1)]
    ensures Listing(w, listed) && AcceptedByWrap(w, RefundOf("q", UINT64 - 1), listed)
    ensures BoundRequest(w, RefundOf("q", UINT64 - 1), listed) == Some(RefundOf("q", UINT64 - 1))
  {
    hide Weight, Outstanding;
    assert listed[0] == w.recs[Sess("1")] && listed[1] == w.recs[Sess("2")];
    assert listed[1..] == [listed[1]] && listed[1..][1..] == [];
    assert Refunded(listed[1..][1..], "1", {} + {"2"}) == 0;
    assert Refunded(listed, "1", {}) == Refunded(listed[1..], "1", {}) == 1;
  }

  lemma {:induction false} WrapProceeds(w: World, req: Request, env: Env)
    requires RefundedOnce(w) && req == RefundOf("q", UINT64 - 1) && env == Calls(0, "3", Success)
    ensures Unused(w, "3") && Proceeds(w, req, env) && Smooth(env)
  {
    NotThird(w.log);
  }

  lemma {:induction false} SecondRefund(w: World, listed: seq<Transfer>, env: Env)
    requires Inv(w, Loose) && Plain(w.books) && RefundedOnce(w)
    requires listed == [Final("1", 0, Success), Repaid("2", "r", 1)] && env == Calls(0, "3", Success)
    ensures Unused(w, "3") && Listing(w, listed) && AcceptedByWrap(w, RefundOf("q", UINT64 - 1), listed)
    ensures var v := Step(w, DoRefund(RefundOf("q", UINT64 - 1), listed, env), Forever);
            Sess("1") in v.recs && v.recs[Sess("1")] == Final("1", 0, Success) && Outstanding(v, "1", Bound) >= UINT64 - 1
  {
    hide Inv, RefundFor, Outstanding, Listing, AcceptedByWrap, BoundRequest, Plain, LegMatches, Proceeds, Unused, Smooth;
    var req := RefundOf("q", UINT64 - 1);
    WrapPasses(w, listed);
    WrapProceeds(w, req, env);
    RefundLands(w, req, listed, env);
    var v := Step(w, DoRefund(req, listed, env), Forever);
    assert v.recs[Sess("3")] == Landed(req, env) && v.rail["3"] == Success;
    WeighsAtLeast(v, "3", "1");
  }

  /** A refund the rail has executed weighs at least its amount. */
  lemma {:induction false} WeighsAtLeast(w: World, r: SessionId, s: SessionId)
    requires Sess(r) in w.recs && w.recs[Sess(r)].session == r && r in w.rail && w.rail[r] == Success
    requires w.recs[Sess(r)].req.purpose == Refund && w.recs[Sess(r)].req.source == s
    ensures Outstanding(w, s, Bound) >= w.recs[Sess(r)].req.amount
  {
    var f := Weight(w.rail, s, Bound);
    var rest, zero := w.recs - {Sess(r)}, (_: Slot, _: Transfer) => 0;
    SumMapPick(w.recs, f, Sess(r));
    forall d | d in rest ensures zero(d, rest[d]) <= f(d, rest[d]) {
      var amount: nat := rest[d].req.amount;
      assert f(d, rest[d]) == 0 || f(d, rest[d]) == amount;
    }
    SumMapMono(rest, zero, f);
    SumMapZero(rest, zero);
  }

  /**
   A run of a payout of one, its refund and a second refund of 2^64 - 1, with
   nothing going wrong: the refunds the rail has executed exceed the payout.
   */
  lemma {:induction false} WrappedRefundExceedsPayout() returns (calls: seq<Call>, last: Op)
    ensures AdmissibleRun(START, calls) && last.DoRefund?
    ensures var w := Run(START, calls);
            var v := Step(w, last, Forever);
            && Admissible(w, last) && AcceptedByWrap(w, last.req, last.listed)
            && Sess("1") in v.recs && v.recs[Sess("1")].req.purpose == Payout
            && Outstanding(v, "1", Bound) > v.recs[Sess("1")].req.amount
  {
    var c1 := Call(DoPayout(REQ, Calls(0, "1", Success)), Forever);
    var c2 := Call(DoRefund(RefundOf("r", 1), [Final("1", 0, Success)], Calls(0, "2", Success)), Forever);
    StartHolds(Loose);
    FirstPayout(START, Success);
    FirstRefund(Step(START, c1.op, Forever));
    assert Run(START, []) == START && AdmissibleRun(START, []);
    RunThen(START, [], c1);
    RunThen(START, [] + [c1], c2);
    calls := [] + [c1] + [c2];
    last := DoRefund(RefundOf("q", UINT64 - 1), [Final("1", 0, Success), Repaid("2", "r", 1)], Calls(0, "3", Success));
    SecondRefund(Run(START, calls), last.listed, last.env);
  }
}
