/** What one undisturbed payout or sweep row achieves: records, rail and ledger leg end in agreement. */
module NipOutcomes {
  import opened Prelude
  import opened Ids
  import L = Ledger
  import opened LedgerLaws
  import opened Nip
  import opened NipLaws

  /** The two accounts of a leg, where open, carry no flags. */
  predicate Plain(s: L.State)
  {
    && (Collections in s.accounts ==> s.accounts[Collections] == NIP_ACCOUNT)
    && (NipClearing in s.accounts ==> s.accounts[NipClearing] == NIP_ACCOUNT)
  }

  predicate Open(s: L.State)
  {
    Collections in s.accounts && NipClearing in s.accounts && Plain(s)
  }

  /** The leg stands for the transfer's full amount and nothing was posted. */
  predicate Standing(s: L.State, t: Transfer)
  {
    && NipLeg(t.session) in s.transfers && s.transfers[NipLeg(t.session)] == LegTransfer(t)
    && NipPost(t.session) !in s.transfers
  }

  /** The leg matches the outcome: posted in full after success, released after failure, standing otherwise. */
  predicate LegMatches(s: L.State, t: Transfer)
  {
    match t.status
    case Success =>
      && NipPost(t.session) in s.transfers && s.transfers[NipPost(t.session)] == LegTransfer(t).(pending := false)
      && NipLeg(t.session) in s.transfers && !s.transfers[NipLeg(t.session)].pending
    case Failed =>
      && NipPost(t.session) !in s.transfers
      && NipLeg(t.session) in s.transfers && !s.transfers[NipLeg(t.session)].pending
    case _ => Standing(s, t)
  }

  lemma {:induction false} OpenPlain(w: World, a: AccountId)
    requires w.life == Forever && Plain(w.books) && a != NoAccount
    ensures var v := Do(w, OpenAccount(a));
            && v == w.(books := v.books) && Plain(v.books) && a in v.books.accounts
            && v.books.transfers == w.books.transfers
            && forall b :: b in w.books.accounts ==> b in v.books.accounts
  {
    if a !in w.books.accounts {
      OpenSingle(w.books, a, NIP_ACCOUNT);
    } else {
      var batch := [L.AccountSpec(a, NIP_ACCOUNT)];
      assert batch[0].id == a;
      assert L.RefusedBy(w.books.accounts, batch).Some?;
    }
  }

  /** On plain accounts the leg is placed. */
  lemma {:induction false} LegPlaced(w: World, t: Transfer)
    requires w.life == Forever && Open(w.books) && t.req.amount > 0
    requires NipLeg(t.session) !in w.books.transfers && NipPost(t.session) !in w.books.transfers
    ensures L.Hold(w.books, NipLeg(t.session), LegTransfer(t)).1.Ok?
    ensures var v := Do(w, L.DoHold(NipLeg(t.session), LegTransfer(t)));
            v == w.(books := v.books) && v.books.accounts == w.books.accounts && Standing(v.books, t)
  {
  }

  lemma {:induction false} LegPosts(w: World, t: Transfer)
    requires w.life == Forever && Open(w.books) && t.req.amount > 0 && t.legged && Standing(w.books, t) && t.status == Success
    ensures !PostRefused(w, t)
    ensures var v := PostLeg(w, t);
            v == w.(books := v.books) && v.books.accounts == w.books.accounts && LegMatches(v.books, t)
  {
  }

  lemma {:induction false} LegReleased(w: World, t: Transfer)
    requires w.life == Forever && t.legged && Standing(w.books, t) && t.status == Failed
    ensures var v := VoidLeg(w, t);
            v == w.(books := v.books) && v.books.accounts == w.books.accounts && LegMatches(v.books, t)
  {
  }

  /** Where a dispatched transfer lands: both records written, the rail committed, one more dispatch. */
  function Delivered(w: World, t: Transfer, now: int, books: L.State): World
  {
    w.(recs := w.recs[Idem(t.req.key) := t][Sess(t.session) := t], rail := w.rail[t.session := t.status],
       log := Sent(w.log, Dispatch(t.session, t.req.key, now, t.expiresAt)), books := books)
  }

  lemma {:induction false} ConcludeLands(w: World, t: Transfer, env: Env)
    requires w.life == Forever && Open(w.books) && t.req.amount > 0 && t.legged && Standing(w.books, t)
    requires Lossless(env)
    ensures var v := Conclude(w, t, env);
            && v == w.(recs := w.recs[Idem(t.req.key) := t][Sess(t.session) := t], books := v.books)
            && v.books.accounts == w.books.accounts && LegMatches(v.books, t)
    ensures ConcludeAnswer(w, t, env) == Some(t)
  {
    if t.status == Success { LegPosts(w, t); }
    if t.status == Failed { LegReleased(w, t); }
  }

  lemma {:induction false} FireLands(w: World, t: Transfer, env: Env)
    requires w.life == Forever && Open(w.books) && t.req.amount > 0 && t.legged && t.session !in w.rail && Standing(w.books, t)
    requires env.dispatch.Heard? && Lossless(env)
    ensures var v := Fire(w, t, env);
            var z := t.(status := env.dispatch.choice);
            v == Delivered(w, z, env.now, v.books) && v.books.accounts == w.books.accounts && LegMatches(v.books, z)
    ensures FireAnswer(w, t, env) == Some(t.(status := env.dispatch.choice))
  {
    ConcludeLands(Send(w, t, env.now, env.dispatch), t.(status := env.dispatch.choice), env);
  }

  lemma {:induction false} Overwritten(m: map<Slot, Transfer>, i: Slot, s: Slot, t: Transfer, u: Transfer)
    requires i != s
    ensures m[i := t][s := t][i := u][s := u] == m[i := u][s := u]
    ensures m[s := t][i := t][i := u][s := u] == m[i := u][s := u]
  {
  }

  lemma {:induction false} PlaceLegLands(w: World, t: Transfer, env: Env)
    requires w.life == Forever && Plain(w.books) && t.req.amount > 0 && t.session !in w.rail
    requires NipLeg(t.session) !in w.books.transfers && NipPost(t.session) !in w.books.transfers
    requires env.dispatch.Heard? && Lossless(env)
    ensures var v := PlaceLeg(w, t, env);
            var z := t.(status := env.dispatch.choice, legged := true);
            v == Delivered(w, z, env.now, v.books) && Plain(v.books) && LegMatches(v.books, z)
    ensures PlaceAnswer(w, t, env) == Some(t.(status := env.dispatch.choice, legged := true))
  {
    OpenPlain(w, Collections);
    var w3 := Do(w, OpenAccount(Collections));
    OpenPlain(w3, NipClearing);
    var w4 := Do(w3, OpenAccount(NipClearing));
    LegPlaced(w4, t);
    var w5 := Do(w4, L.DoHold(NipLeg(t.session), LegTransfer(t)));
    var u := t.(legged := true);
    FireLands(PutBoth(w5, u, env.markLost), u, env);
    Overwritten(w.recs, Idem(t.req.key), Sess(t.session), u, u.(status := env.dispatch.choice));
  }

  /** The rail's answer is heard and no store write fails. */
  ghost predicate Smooth(env: Env)
  {
    env.verified && env.dispatch.Heard? && !env.idemFault && !env.sessFault && Lossless(env)
  }

  lemma {:induction false} BeginLands(w: World, t: Transfer, env: Env)
    requires Inv(w, Loose) && w.life == Forever && Plain(w.books) && Unused(w, t.session)
    requires t.req.amount > 0 && Smooth(env)
    ensures var v := Begin(w, t, env);
            var z := t.(status := env.dispatch.choice, legged := true);
            v == Delivered(w, z, env.now, v.books) && Plain(v.books) && LegMatches(v.books, z)
    ensures BeginAnswer(w, t, env) == Some(t.(status := env.dispatch.choice, legged := true))
  {
    assert LegAt(w, t.session) && RecAt(w, Sess(t.session), Loose);
    var w2 := Put(Put(w, Idem(t.req.key), t, false), Sess(t.session), t, false);
    assert Begin(w, t, env) == PlaceLeg(w2, t, env);
    PlaceLegLands(w2, t, env);
    Overwritten(w.recs, Idem(t.req.key), Sess(t.session), t, t.(status := env.dispatch.choice, legged := true));
  }

  function Landed(req: Request, env: Env): Transfer
    requires env.dispatch.Heard?
  {
    NewTransfer(req, env).(status := env.dispatch.choice, legged := true)
  }

  /**
   An undisturbed payout or refund that proceeds: one dispatch, the rail's answer
   under both slots and in the reply, and the leg posted, released or standing with it.
   */
  lemma {:induction false} PayoutSettles(w: World, req: Request, env: Env)
    requires Inv(w, Loose) && w.life == Forever && Plain(w.books) && Unused(w, env.session)
    requires Proceeds(w, req, env) && Smooth(env)
    ensures PayoutAnswer(w, req, env) == Some(Landed(req, env))
    ensures var v := PayoutLocked(w, req, env);
            v == Delivered(w, Landed(req, env), env.now, v.books) && Plain(v.books) && LegMatches(v.books, Landed(req, env))
  {
    PayoutUnfolds(w, req, env);
    BeginLands(w, NewTransfer(req, env), env);
  }

  // ---------------------------------------------------------------- the sweep

  /**
   An undisturbed sweep row whose status query is answered with success: both
   records say success and the standing leg is posted.
   */
  lemma {:induction false} ResolveSucceeds(w: World, t: Transfer, env: Env)
    requires w.life == Forever && Open(w.books) && t.req.amount > 0 && t.legged && Standing(w.books, t) && Lossless(env)
    requires env.tsq(t.session).Heard? && Answer(w.rail, t.session, env.tsq(t.session).choice) == Success
    ensures var v := Resolve(w, t, env);
            var z := t.(status := Success);
            && v.recs == w.recs[Sess(t.session) := z][Idem(t.req.key) := z]
            && t.session in v.rail && v.rail[t.session] == Success && LegMatches(v.books, z)
  {
    LegPosts(Ask(w, t.session, env.tsq(t.session)), t.(status := Success));
  }

  /**
   An undisturbed sweep row whose status query is answered with failure and
   whose reversal is answered: the records take the rail's final word and the
   standing leg is released without moving money.
   */
  lemma {:induction false} ResolveFails(w: World, t: Transfer, env: Env)
    requires w.life == Forever && t.legged && Standing(w.books, t) && Lossless(env)
    requires Sess(t.session) in w.recs && w.recs[Sess(t.session)] == t && t.status == InFlight
    requires env.tsq(t.session).Heard? && Answer(w.rail, t.session, env.tsq(t.session).choice) == Failed
    requires env.reversal(t.session).Heard?
    ensures var v := Resolve(w, t, env);
            var z := t.(status := if env.reversal(t.session).choice == Reversed then Reversed else Failed);
            && v.recs == w.recs[Sess(t.session) := z][Idem(t.req.key) := z]
            && t.session in v.rail && v.rail[t.session] == z.status && LegMatches(v.books, t.(status := Failed))
  {
    LegReleased(Ask(w, t.session, env.tsq(t.session)), t.(status := Failed));
  }
}
