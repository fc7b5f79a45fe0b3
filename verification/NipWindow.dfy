/**
 Idempotency keys and their windows: how many dispatches one key triggers, and
 exactly when a reversal, a sweep or a purge takes a live key's record away.
 */
module NipWindow {
  import opened Prelude
  import opened Ids
  import L = Ledger
  import opened Nip
  import opened NipLaws

  // ---------------------------------------------------------------- definitions

  /** The last dispatch under a key. */
  function LastFor(log: Dispatches, k: string): Option<Dispatch>
  {
    match log
    case Unsent => None
    case Sent(past, d) => if d.key == k then Some(d) else LastFor(past, k)
  }

  /** Each dispatch under the key comes after the window of the one before it has closed. */
  predicate Spaced(log: Dispatches, k: string)
  {
    match log
    case Unsent => true
    case Sent(past, d) =>
      && Spaced(past, k)
      && (d.key == k && LastFor(past, k).Some? ==> d.at > LastFor(past, k).value.expiresAt)
  }

  /** While the last dispatch under the key is in its window, the idempotency slot holds that transfer. */
  predicate Guarded(w: World, k: string)
  {
    LastFor(w.log, k).Some? && w.clock <= LastFor(w.log, k).value.expiresAt ==> Holds(w, k, LastFor(w.log, k).value)
  }

  predicate Holds(w: World, k: string, d: Dispatch)
  {
    Idem(k) in w.recs && w.recs[Idem(k)].session == d.session && w.recs[Idem(k)].expiresAt == d.expiresAt
  }

  predicate Window(w: World, k: string)
  {
    Guarded(w, k) && Spaced(w.log, k)
  }

  // ---------------------------------------------------------------- what takes a live record away

  /** A reversal that ends with the `calls`-th call from here writes the idempotency slot of `k`. */
  predicate ReverseWrites(w: World, session: SessionId, env: Env, k: string, calls: nat)
  {
    && Sess(session) in w.recs && w.recs[Sess(session)].status !in {Success, Reversed}
    && w.recs[Sess(session)].req.key == k
    && env.reversal(session).Heard? && !env.lost(session)(Idem(k)) && Lives(w.life, calls)
  }

  /** A row of the status sweep writes the idempotency slot of `k`. */
  predicate RowWrites(w: World, t: Transfer, env: Env, k: string)
  {
    var leg := if t.legged then 1 else 0;
    && env.tsq(t.session).Heard?
    && match Answer(w.rail, t.session, env.tsq(t.session).choice)
       case Success =>
         t.req.key == k && !PostRefused(w, t) && !env.lost(t.session)(Idem(k)) && Lives(w.life, 3 + leg)
       case Failed => ReverseWrites(w, t.session, env, k, 4 + leg)
       case _ => false
  }

  /** The session of the last row of a sweep that writes the slot of `k`. */
  function Writer(w: World, listed: seq<Transfer>, env: Env, seen: set<SessionId>, k: string): Option<SessionId>
    decreases |listed|
  {
    if listed == [] then None
    else if listed[0].status != InFlight || listed[0].session in seen then Writer(w, listed[1..], env, seen, k)
    else
      var later := Writer(Resolve(w, listed[0], env), listed[1..], env, seen + {listed[0].session}, k);
      if later.None? && RowWrites(w, listed[0], env, k) then Some(listed[0].session) else later
  }

  /** A purge reaches an expired, final transfer under `k` before its process dies. */
  predicate PurgeTakes(listed: seq<Transfer>, now: int, life: Life, k: string)
  {
    listed != [] && (if Purged(listed[0], now)
                     then life != For(0) && (listed[0].req.key == k || PurgeTakes(listed[1..], now, Tick(life), k))
                     else PurgeTakes(listed[1..], now, life, k))
  }

  /** While the last dispatch under `k` is in its window, the operation puts another transfer in its slot or empties it. */
  predicate Disturbs(w: World, op: Op, life: Life, k: string)
  {
    var last := LastFor(w.log, k);
    var v := w.(clock := TimeOf(w, op), life := life);
    && last.Some? && TimeOf(w, op) <= last.value.expiresAt
    && match op
       case DoReversal(session, env) => ReverseWrites(v, session, env, k, 3) && session != last.value.session
       case DoSweep(listed, env) => Writer(v, listed, env, {}, k) !in {None, Some(last.value.session)}
       case DoPurge(listed, now) => PurgeTakes(listed, now, life, k)
       case _ => false
  }

  // ---------------------------------------------------------------- payouts keep the window

  /** Only the idempotency slot of `key` and session slots were written, and nothing was dispatched. */
  ghost predicate Wrote(w: World, v: World, key: string)
  {
    && v.log == w.log && v.clock == w.clock
    && (forall k :: k != key ==> (Idem(k) in v.recs <==> Idem(k) in w.recs))
    && (forall k :: k != key && Idem(k) in w.recs ==> v.recs[Idem(k)] == w.recs[Idem(k)])
  }

  lemma {:induction false} WroteWindow(w: World, v: World, key: string, k: string)
    requires Wrote(w, v, key) && Window(w, k)
    requires k == key && LastFor(w.log, k).Some? && w.clock <= LastFor(w.log, k).value.expiresAt ==>
               Holds(v, k, LastFor(w.log, k).value)
    ensures Window(v, k)
  {
  }

  /** The slot of the key holds `t`. */
  predicate Armed(w: World, t: Transfer)
  {
    Idem(t.req.key) in w.recs && w.recs[Idem(t.req.key)].session == t.session
    && w.recs[Idem(t.req.key)].expiresAt == t.expiresAt
  }

  lemma {:induction false} PutBothWrote(w: World, t: Transfer, lost: Slot -> bool)
    ensures Wrote(w, PutBoth(w, t, lost), t.req.key)
    ensures Armed(w, t) ==> Armed(PutBoth(w, t, lost), t)
  {
  }

  lemma {:induction false} OutcomeWrote(w: World, t: Transfer, env: Env)
    ensures Wrote(w, WriteOutcome(w, t, env), t.req.key)
    ensures Armed(w, t) ==> Armed(WriteOutcome(w, t, env), t)
  {
  }

  lemma {:induction false} ConcludeWrote(w: World, t: Transfer, env: Env)
    ensures Wrote(w, Conclude(w, t, env), t.req.key)
    ensures Armed(w, t) ==> Armed(Conclude(w, t, env), t)
  {
    hide L.Step, L.Post, PostLeg, VoidLeg, WriteOutcome;
    LegCall(w, t);
    OutcomeWrote(PostLeg(w, t), t, env);
    OutcomeWrote(VoidLeg(w, t), t, env);
    OutcomeWrote(w, t, env);
  }

  /** The earlier dispatches under the transfer's key, if any, are out of their window. */
  predicate Clear(w: World, t: Transfer, now: int)
  {
    LastFor(w.log, t.req.key).Some? ==> now > LastFor(w.log, t.req.key).value.expiresAt
  }

  lemma {:induction false} FireWindow(w: World, t: Transfer, env: Env, k: string)
    requires Window(w, k) && w.clock == env.now
    requires w.life != For(0) ==> Armed(w, t) && (t.req.key == k ==> Clear(w, t, env.now))
    ensures Window(Fire(w, t, env), k)
  {
    if w.life == For(0) {
      assert Fire(w, t, env) == w;
    } else {
      var w1 := Send(w, t, env.now, env.dispatch);
      assert Window(w1, k) && Armed(w1, t);
      PutBothWrote(w1, t, env.lost(t.session));
      var u := t.(status := SendAnswer(w, t, env.dispatch));
      ConcludeWrote(w1, u, env);
      WroteWindow(w1, Fire(w, t, env), t.req.key, k);
    }
  }

  lemma {:induction false} PlaceLegWindow(w: World, t: Transfer, env: Env, k: string)
    requires Window(w, k) && w.clock == env.now
    requires w.life != For(0) ==> Armed(w, t) && (t.req.key == k ==> Clear(w, t, env.now))
    ensures Window(PlaceLeg(w, t, env), k)
  {
    hide L.Step, L.Hold;
    var w1 := Do(Do(w, OpenAccount(Collections)), OpenAccount(NipClearing));
    if L.Hold(w1.books, NipLeg(t.session), LegTransfer(t)).1.Ok? {
      var w2 := Do(w1, L.DoHold(NipLeg(t.session), LegTransfer(t)));
      var u := t.(legged := true);
      assert w2.recs == w.recs && w2.log == w.log && w2.clock == w.clock;
      PutBothWrote(w2, u, env.markLost);
      WroteWindow(w2, PutBoth(w2, u, env.markLost), t.req.key, k);
      FireWindow(PutBoth(w2, u, env.markLost), u, env, k);
    }
  }

  lemma {:induction false} BeginWindow(w: World, t: Transfer, env: Env, k: string)
    requires Window(w, k) && w.clock == env.now && (t.req.key == k ==> Clear(w, t, env.now))
    ensures Window(Begin(w, t, env), k)
  {
    var w1 := Put(w, Idem(t.req.key), t, env.idemFault);
    WroteWindow(w, w1, t.req.key, k);
    if !env.idemFault {
      var w2 := Put(w1, Sess(t.session), t, env.sessFault);
      WroteWindow(w1, w2, t.req.key, k);
      if !env.sessFault { PlaceLegWindow(w2, t, env, k); }
    }
  }

  /** A payout dispatches a key only when its last window has closed. */
  lemma {:induction false} PayoutWindow(w: World, req: Request, env: Env, k: string)
    requires Window(w, k) && w.clock == env.now
    ensures Window(PayoutLocked(w, req, env), k)
  {
    PayoutUnfolds(w, req, env);
    if Proceeds(w, req, env) { BeginWindow(w, NewTransfer(req, env), env, k); }
  }

  // ---------------------------------------------------------------- maintenance

  predicate SameSlot(w: World, v: World, k: string)
  {
    (Idem(k) in v.recs <==> Idem(k) in w.recs) && (Idem(k) in w.recs ==> v.recs[Idem(k)] == w.recs[Idem(k)])
  }

  /** The slot of `k` holds a copy of `t`. */
  predicate SlotOf(w: World, k: string, t: Transfer)
  {
    Idem(k) in w.recs && Same(w.recs[Idem(k)], t)
  }

  lemma {:induction false} PutBothSlot(w: World, t: Transfer, lost: Slot -> bool, k: string)
    ensures var v := PutBoth(w, t, lost);
            if t.req.key == k && !lost(Idem(k)) && Lives(w.life, 2) then SlotOf(v, k, t) else SameSlot(w, v, k)
  {
  }

  lemma {:induction false} ReverseSlot(w: World, session: SessionId, env: Env, k: string)
    ensures var v := Reverse(w, session, env);
            if ReverseWrites(w, session, env, k, 3) then SlotOf(v, k, w.recs[Sess(session)]) else SameSlot(w, v, k)
    ensures Idle(w, Reverse(w, session, env))
  {
    var reply := env.reversal(session);
    if Sess(session) in w.recs && reply.Heard? {
      var t := w.recs[Sess(session)].(status := Answer(w.rail, session, reply.choice));
      PutBothSlot(Ask(w, session, reply), t, env.lost(session), k);
    }
  }

  /** Settling the leg is one call to the ledger, where there is a leg. */
  lemma {:induction false} LegCall(w: World, t: Transfer)
    ensures var life := if t.legged then Tick(w.life) else w.life;
            && PostLeg(w, t) == w.(life := life, books := PostLeg(w, t).books)
            && VoidLeg(w, t) == w.(life := life, books := VoidLeg(w, t).books)
  {
    hide L.Step;
  }

  lemma {:induction false} ResolveSlot(w: World, t: Transfer, env: Env, k: string)
    requires Sess(t.session) in w.recs ==> Same(w.recs[Sess(t.session)], t)
    ensures var v := Resolve(w, t, env);
            if RowWrites(w, t, env, k) then SlotOf(v, k, t) else SameSlot(w, v, k)
  {
    hide L.Step, L.Post, PutBoth, Reverse, PostLeg, VoidLeg;
    LegCall(Ask(w, t.session, env.tsq(t.session)), t);
    var w1 := Ask(w, t.session, env.tsq(t.session));
    PutBothSlot(PostLeg(w1, t), t.(status := Success), env.lost(t.session), k);
    ReverseSlot(VoidLeg(w1, t), t.session, env, k);
  }

  ghost predicate Idle(w: World, v: World)
  {
    v.log == w.log && v.clock == w.clock
  }

  /** The dispatched transfer is stored under its session. */
  predicate Kept(w: World, d: Dispatch)
  {
    Sess(d.session) in w.recs && w.recs[Sess(d.session)].expiresAt == d.expiresAt
  }

  /** A slot that holds a copy of a stored transfer holds the dispatch exactly when it is the dispatch's session. */
  lemma {:induction false} SlotHolds(w: World, k: string, t: Transfer, d: Dispatch)
    requires SlotOf(w, k, t) && Kept(w, d) && (Sess(t.session) in w.recs ==> Same(w.recs[Sess(t.session)], t))
    ensures Holds(w, k, d) <==> t.session == d.session
  {
  }

  /** A reversal takes the live record away exactly when it writes the slot for another session. */
  lemma {:induction false} ReverseHoldsIff(w: World, session: SessionId, env: Env, k: string, d: Dispatch)
    requires Inv(w, Loose) && Kept(w, d) && Holds(w, k, d)
    ensures Holds(Reverse(w, session, env), k, d) <==> !(ReverseWrites(w, session, env, k, 3) && session != d.session)
  {
    ReverseSlot(w, session, env, k);
    if ReverseWrites(w, session, env, k, 3) {
      var t, v := w.recs[Sess(session)], Reverse(w, session, env);
      assert RecAt(w, Sess(session), Loose);
      ReverseKeeps(w, session, env, Loose);
      SlotHolds(v, k, t, d);
    }
  }

  /** A row of the sweep decides the slot when it writes it, and leaves it alone when it does not. */
  lemma {:induction false} RowDecides(w: World, t: Transfer, env: Env, k: string, d: Dispatch)
    requires Inv(w, Loose) && Kept(w, d) && Known(w, t)
    ensures var v := Resolve(w, t, env);
            Kept(v, d) && (Holds(v, k, d) <==> if RowWrites(w, t, env, k) then t.session == d.session else Holds(w, k, d))
  {
    var v := Resolve(w, t, env);
    ResolveSlot(w, t, env, k);
    ResolveKeeps(w, t, env, Loose);
    if RowWrites(w, t, env, k) {
      KnownLater(w, v, t);
      SlotHolds(v, k, t, d);
    }
  }

  /** One row takes the live record away exactly when it writes the slot for another session. */
  lemma {:induction false} RowHoldsIff(w: World, t: Transfer, env: Env, k: string, d: Dispatch)
    requires Inv(w, Loose) && Kept(w, d) && Holds(w, k, d) && Known(w, t)
    ensures Holds(Resolve(w, t, env), k, d) <==> !(RowWrites(w, t, env, k) && t.session != d.session)
  {
    RowDecides(w, t, env, k, d);
  }

  /** A sweep leaves the slot to the last row that writes it. */
  lemma {:induction false} SweepHoldsIff(w: World, listed: seq<Transfer>, env: Env, seen: set<SessionId>, k: string, d: Dispatch)
    requires Inv(w, Loose) && Kept(w, d) && AllKnown(w, listed)
    ensures var last := Writer(w, listed, env, seen, k);
            Holds(Sweep(w, listed, env, seen), k, d) <==> if last.Some? then last.value == d.session else Holds(w, k, d)
    ensures Idle(w, Sweep(w, listed, env, seen))
    decreases |listed|
  {
    hide Inv, Resolve, RowWrites, Frame;
    if listed != [] {
      var t, rest := listed[0], listed[1..];
      if t.status != InFlight || t.session in seen {
        SweepHoldsIff(w, rest, env, seen, k, d);
      } else {
        var w1 := Resolve(w, t, env);
        RowDecides(w, t, env, k, d);
        ResolveKeeps(w, t, env, Loose);
        ResolveIdle(w, t, env);
        forall i | 0 <= i < |rest| ensures Known(w1, rest[i]) { KnownLater(w, w1, listed[i + 1]); }
        SweepHoldsIff(w1, rest, env, seen + {t.session}, k, d);
      }
    }
  }

  /** A purge empties the slot exactly when it reaches an expired, final transfer under its key. */
  lemma {:induction false} PurgeSlot(w: World, listed: seq<Transfer>, now: int, k: string)
    ensures var v := Purge(w, listed, now);
            if PurgeTakes(listed, now, w.life, k) then Idem(k) !in v.recs else SameSlot(w, v, k)
    ensures Idle(w, Purge(w, listed, now))
    decreases |listed|
  {
    if listed != [] {
      var w1 := if Purged(listed[0], now) then Delete(w, Idem(listed[0].req.key)) else w;
      PurgeSlot(w1, listed[1..], now, k);
      if w.life == For(0) { PurgeDead(listed[1..], now, k); }
      if Idem(k) !in w1.recs { PurgeAbsent(w1, listed[1..], now, k); }
    }
  }

  lemma {:induction false} PurgeDead(listed: seq<Transfer>, now: int, k: string)
    ensures !PurgeTakes(listed, now, For(0), k)
  {
    if listed != [] { PurgeDead(listed[1..], now, k); }
  }

  lemma {:induction false} PurgeAbsent(w: World, listed: seq<Transfer>, now: int, k: string)
    requires Idem(k) !in w.recs
    ensures Idem(k) !in Purge(w, listed, now).recs
    decreases |listed|
  {
    if listed != [] {
      PurgeAbsent(if Purged(listed[0], now) then Delete(w, Idem(listed[0].req.key)) else w, listed[1..], now, k);
    }
  }

  lemma {:induction false} LastSent(log: Dispatches, k: string)
    requires LastFor(log, k).Some?
    ensures SentCount(log, LastFor(log, k).value.session) >= 1
  {
    if log.last.key != k { LastSent(log.past, k); }
  }

  /** A dispatch whose slot holds it is stored under its session too. */
  lemma {:induction false} HeldKept(w: World, k: string)
    requires Inv(w, Loose) && LastFor(w.log, k).Some? && Holds(w, k, LastFor(w.log, k).value)
    ensures Kept(w, LastFor(w.log, k).value)
  {
    var d := LastFor(w.log, k).value;
    LastSent(w.log, k);
    assert LegAt(w, d.session) && RecAt(w, Idem(k), Loose);
  }

  predicate Maintenance(op: Op)
  {
    op.DoReversal? || op.DoSweep? || op.DoPurge?
  }

  lemma {:induction false} MaintenanceHoldsIff(w: World, op: Op, life: Life, k: string)
    requires Inv(w, Loose) && Admissible(w, op) && Maintenance(op)
    requires LastFor(w.log, k).Some? && TimeOf(w, op) <= LastFor(w.log, k).value.expiresAt
    requires Holds(w, k, LastFor(w.log, k).value)
    ensures Holds(Step(w, op, life), k, LastFor(w.log, k).value) <==> !Disturbs(w, op, life, k)
  {
    var d := LastFor(w.log, k).value;
    var v := w.(clock := TimeOf(w, op), life := life);
    HeldKept(w, k);
    LifeKeeps(w, life, TimeOf(w, op), Loose);
    match op
    case DoReversal(session, env) => ReverseHoldsIff(v, session, env, k, d);
    case DoSweep(listed, env) =>
      ListingKnown(w, v, listed, Loose);
      SweepHoldsIff(v, listed, env, {}, k, d);
    case DoPurge(listed, now) => PurgeSlot(v, listed, now, k);
  }

  /** A new payout at `now` would not find a live transfer under the key. */
  predicate SlotFree(w: World, k: string, now: int)
  {
    Idem(k) !in w.recs || Expired(w.recs[Idem(k)], now)
  }

  /** The operation empties the slot of `k`, or puts a transfer there that is expired at `now`. */
  predicate Frees(w: World, op: Op, life: Life, k: string, now: int)
  {
    var v := w.(clock := TimeOf(w, op), life := life);
    match op
    case DoReversal(session, env) => ReverseWrites(v, session, env, k, 3) && Expired(w.recs[Sess(session)], now)
    case DoSweep(listed, env) =>
      var last := Writer(v, listed, env, {}, k);
      last.Some? && Sess(last.value) in w.recs && Expired(w.recs[Sess(last.value)], now)
    case DoPurge(listed, at) => PurgeTakes(listed, at, life, k)
    case _ => false
  }

  lemma {:induction false} RowStored(w: World, t: Transfer, env: Env, k: string)
    requires Inv(w, Loose) && RowWrites(w, t, env, k)
    ensures Sess(t.session) in w.recs
  {
    assert LegAt(w, t.session);
    AskKeeps(w.(life := Forever), t.session, env.tsq(t.session), Loose) by { LifeKeeps(w, Forever, w.clock, Loose); }
    assert LegAt(Ask(w.(life := Forever), t.session, env.tsq(t.session)), t.session);
  }

  lemma {:induction false} WriterStored(w: World, listed: seq<Transfer>, env: Env, seen: set<SessionId>, k: string)
    requires Inv(w, Loose) && AllKnown(w, listed) && Writer(w, listed, env, seen, k).Some?
    ensures Sess(Writer(w, listed, env, seen, k).value) in w.recs
    decreases |listed|
  {
    hide Inv, Resolve, RowWrites;
    var t, rest := listed[0], listed[1..];
    if t.status != InFlight || t.session in seen {
      WriterStored(w, rest, env, seen, k);
    } else {
      var w1 := Resolve(w, t, env);
      ResolveKeeps(w, t, env, Loose);
      forall i | 0 <= i < |rest| ensures Known(w1, rest[i]) { KnownLater(w, w1, listed[i + 1]); }
      if Writer(w1, rest, env, seen + {t.session}, k).Some? {
        WriterStored(w1, rest, env, seen + {t.session}, k);
      } else {
        RowStored(w, t, env, k);
      }
    }
  }

  lemma {:induction false} SweepFreesIff(w: World, listed: seq<Transfer>, env: Env, k: string, d: Dispatch, now: int)
    requires Inv(w, Loose) && AllKnown(w, listed) && Kept(w, d) && Holds(w, k, d) && now <= d.expiresAt
    ensures var last := Writer(w, listed, env, {}, k);
            SlotFree(Sweep(w, listed, env, {}), k, now) <==>
              last.Some? && Sess(last.value) in w.recs && Expired(w.recs[Sess(last.value)], now)
  {
    hide Inv, Sweep, Writer;
    var last := Writer(w, listed, env, {}, k);
    SweepHoldsIff(w, listed, env, {}, k, d);
    if last.Some? {
      WriterStored(w, listed, env, {}, k);
      var r := Dispatch(last.value, k, 0, w.recs[Sess(last.value)].expiresAt);
      SweepHoldsIff(w, listed, env, {}, k, r);
    }
  }

  /** Within the window of the last dispatch, maintenance frees a held slot exactly under these guards. */
  lemma {:induction false} FreesIff(w: World, op: Op, life: Life, k: string, now: int)
    requires Inv(w, Loose) && Admissible(w, op) && Maintenance(op) && Window(w, k)
    requires LastFor(w.log, k).Some? && TimeOf(w, op) <= now <= LastFor(w.log, k).value.expiresAt
    ensures SlotFree(Step(w, op, life), k, now) <==> Frees(w, op, life, k, now)
  {
    hide Inv, Reverse, Purge, Sweep;
    var d := LastFor(w.log, k).value;
    var v := w.(clock := TimeOf(w, op), life := life);
    HeldKept(w, k);
    LifeKeeps(w, life, TimeOf(w, op), Loose);
    match op
    case DoReversal(session, env) => ReverseSlot(v, session, env, k);
    case DoSweep(listed, env) =>
      ListingKnown(w, v, listed, Loose);
      SweepFreesIff(v, listed, env, k, d, now);
    case DoPurge(listed, at) => PurgeSlot(v, listed, at, k);
  }

  lemma {:induction false} MaintenanceIdle(w: World, op: Op, life: Life)
    requires Maintenance(op)
    ensures Step(w, op, life).log == w.log && Step(w, op, life).clock == TimeOf(w, op)
  {
    var v := w.(clock := TimeOf(w, op), life := life);
    match op
    case DoReversal(session, env) => ReverseSlot(v, session, env, "");
    case DoSweep(listed, env) => SweepIdle(v, listed, env, {});
    case DoPurge(listed, now) => PurgeSlot(v, listed, now, "");
  }

  lemma {:induction false} ResolveIdle(w: World, t: Transfer, env: Env)
    ensures Idle(w, Resolve(w, t, env))
  {
    hide L.Step, L.Post, PostLeg, VoidLeg;
    LegCall(Ask(w, t.session, env.tsq(t.session)), t);
  }

  lemma {:induction false} SweepIdle(w: World, listed: seq<Transfer>, env: Env, seen: set<SessionId>)
    ensures Idle(w, Sweep(w, listed, env, seen))
    decreases |listed|
  {
    hide Resolve;
    if listed != [] {
      if listed[0].status != InFlight || listed[0].session in seen {
        SweepIdle(w, listed[1..], env, seen);
      } else {
        ResolveIdle(w, listed[0], env);
        SweepIdle(Resolve(w, listed[0], env), listed[1..], env, seen + {listed[0].session});
      }
    }
  }

  /** The exact condition for one maintenance call: the live key stays guarded unless the call disturbs it. */
  lemma {:induction false} MaintenanceWindowIff(w: World, op: Op, life: Life, k: string)
    requires Inv(w, Loose) && Admissible(w, op) && Maintenance(op) && Window(w, k)
    ensures Window(Step(w, op, life), k) <==> !Disturbs(w, op, life, k)
  {
    MaintenanceIdle(w, op, life);
    var last := LastFor(w.log, k);
    if last.Some? && TimeOf(w, op) <= last.value.expiresAt { MaintenanceHoldsIff(w, op, life, k); }
  }

  // ---------------------------------------------------------------- runs

  lemma {:induction false} StepWindowIff(w: World, c: Call, k: string)
    requires Inv(w, Loose) && Admissible(w, c.op) && Window(w, k)
    ensures Window(Step(w, c.op, c.life), k) <==> !Disturbs(w, c.op, c.life, k)
  {
    var v := w.(clock := TimeOf(w, c.op), life := c.life);
    assert Window(v, k);
    match c.op
    case DoPayout(req, env) => PayoutWindow(v, req, env, k);
    case DoRefund(req, listed, env) =>
      var bound := BoundRequest(v, req, listed);
      if bound.Some? { PayoutWindow(v, bound.value, env, k); }
    case DoElsewhere(_) =>
    case _ => MaintenanceWindowIff(w, c.op, c.life, k);
  }

  /** No call of the run disturbs the key. */
  ghost predicate Unperturbed(calls: seq<Call>, k: string)
  {
    calls == [] || (Unperturbed(calls[..|calls| - 1], k)
                    && !Disturbs(Run(START, calls[..|calls| - 1]), calls[|calls| - 1].op, calls[|calls| - 1].life, k))
  }

  /** The key is guarded after every call of the run. */
  ghost predicate GuardedThroughout(calls: seq<Call>, k: string)
  {
    Window(Run(START, calls), k) && (calls != [] ==> GuardedThroughout(calls[..|calls| - 1], k))
  }

  /**
   With crashes and lost writes anywhere: a key's live record stays in its slot
   throughout a run if and only if no call of the run disturbs it.
   */
  lemma {:induction false} GuardedIff(calls: seq<Call>, k: string)
    requires AdmissibleRun(START, calls)
    ensures GuardedThroughout(calls, k) <==> Unperturbed(calls, k)
  {
    if calls != [] {
      var n := |calls| - 1;
      GuardedIff(calls[..n], k);
      if GuardedThroughout(calls[..n], k) {
        RunKeepsInv(calls[..n], Loose);
        StepWindowIff(Run(START, calls[..n]), calls[n], k);
      }
    }
  }

  /**
   As long as no reversal, sweep or purge takes the live record of a key away, each
   key is dispatched at most once in a window.
   */
  lemma {:induction false} OneDispatchPerWindow(calls: seq<Call>, k: string)
    requires AdmissibleRun(START, calls) && Unperturbed(calls, k)
    ensures Spaced(Run(START, calls).log, k)
  {
    GuardedIff(calls, k);
  }

  /**
   A purge removes a key's idempotency record exactly when some stored transfer
   under that key is expired and final, so it removes a live one exactly when
   the key was used again after an earlier transfer of it expired.
   */
  lemma {:induction false} PurgeRemovesIff(w: World, listed: seq<Transfer>, now: int, k: string)
    requires w.life == Forever && Listing(w, listed) && k != "" && Idem(k) in w.recs
    ensures Idem(k) !in Purge(w, listed, now).recs
       <==> exists c :: c in w.recs && w.recs[c].req.key == k && Purged(w.recs[c], now)
  {
    PurgeEffect(w, listed, now, k);
    if exists c :: c in w.recs && w.recs[c].req.key == k && Purged(w.recs[c], now) {
      var c :| c in w.recs && w.recs[c].req.key == k && Purged(w.recs[c], now);
      assert w.recs[c] in listed;
    }
    if i :| 0 <= i < |listed| && listed[i].req.key == k && Purged(listed[i], now) {
      assert Stored(w, listed[i]);
    }
  }

  lemma {:induction false} PurgeEffect(w: World, listed: seq<Transfer>, now: int, k: string)
    requires w.life == Forever
    ensures Idem(k) in Purge(w, listed, now).recs
       <==> Idem(k) in w.recs && forall i :: 0 <= i < |listed| && listed[i].req.key == k ==> !Purged(listed[i], now)
    decreases |listed|
  {
    if listed != [] {
      var w1 := if Purged(listed[0], now) then Delete(w, Idem(listed[0].req.key)) else w;
      PurgeEffect(w1, listed[1..], now, k);
      assert forall i :: 1 <= i < |listed| ==> listed[i] == listed[1..][i - 1];
    }
  }
}
