/** What an accrual pays and a clawback takes, level by level, said in terms of the request, the rates and the stored records. */
module CommissionOutcomes {
  import opened Prelude
  import opened Ids
  import L = Ledger
  import opened LedgerLaws
  import opened Commissions
  import opened CommissionLaws
  import opened CommissionFunding
  import opened CommissionDrift

  // ---------------------------------------------------------------- one level

  /** The level's post took the amount out of the pool and brought it to the agent. */
  ghost predicate PaidTo(s: L.State, k: Key, agent: string, amount: nat)
  {
    var hold, post := CommHold(k.tenant, k.reference, k.level), CommPost(k.tenant, k.reference, k.level);
    && post in s.transfers
    && s.transfers[post] == L.Transfer(CommissionPool, AgentCommission(agent), 700, 6, amount, false)
    && Moves(s.journal, post) == 1 && AmountMoved(s.journal, post) == amount
    && Logged(s.journal, L.Moved(post, hold, CommissionPool, AgentCommission(agent), amount))
  }

  /** The record of a level stands for thirty-five days. */
  predicate Standing(w: World, k: Key, now: int)
  {
    k in w.records && now <= w.records[k].expiresAt
  }

  /** The level was marked as this payload says, unless the write failed. */
  predicate MarkedAs(w: World, v: World, k: Key, p: Payload, env: Env)
  {
    v.records == if env.markFault(p.level) then w.records else w.records[k := Record(k.tenant, p, Posted, env.now + 3024000)]
  }

  /** The hold of the level can be placed, or stands already for this very payment. */
  predicate Holdable(s: L.State, k: Key, p: Payload)
  {
    CommHold(k.tenant, k.reference, k.level) in s.transfers ==>
      s.transfers[CommHold(k.tenant, k.reference, k.level)]
        == L.Transfer(CommissionPool, AgentCommission(p.agent), 700, 6, p.amount, true)
  }

  /** A standing hold is posted in full, and the level is marked. */
  lemma {:induction false} HeldOutcome(w: World, e: Earner, p: Payload, env: Env)
    requires Inv(w, map[]) && w.life == Forever && Plain(w.books) && p.amount > 0
    requires HoldId(KeyFor(e, p)) in w.books.transfers && w.books.transfers[HoldId(KeyFor(e, p))] == HoldTransfer(p)
    requires PostId(KeyFor(e, p)) !in w.books.transfers
    ensures var (v, ok) := PostAndMark(w, e, p, env);
            && ok == !env.markFault(p.level) && PaidTo(v.books, KeyFor(e, p), p.agent, p.amount) && MarkedAs(w, v, KeyFor(e, p), p, env)
  {
    hide L.Post, Extends;
    var k := KeyFor(e, p);
    assert ClosedAt(w.books, HoldId(k));
    assert PlainAt(w.books, CommissionPool) && PlainAt(w.books, AgentCommission(p.agent));
    PostAccepted(w.books, k, p);
    assert At(w, k, map[]);
    PostLands(w, k, p, map[]);
    hide Plain, Inv, At;
  }

  lemma {:induction false} SagaOutcome(w: World, e: Earner, p: Payload, env: Env)
    requires Inv(w, map[]) && w.life == Forever && Plain(w.books) && Ready(w.books, e.agent) && p.agent == e.agent && p.amount > 0
    ensures var k, (v, ok) := KeyFor(e, p), Saga(w, e, p, env);
            if PostId(k) in w.books.transfers then v.books == w.books && MarkedAs(w, v, k, p, env) && ok == !env.markFault(p.level)
            else if Holdable(w.books, k, p) then PaidTo(v.books, k, p.agent, p.amount) && MarkedAs(w, v, k, p, env) && ok == !env.markFault(p.level)
            else v == w && !ok
  {
    hide L.Hold, L.Post, Extends, PaidTo;
    var k := KeyFor(e, p);
    assert At(w, k, map[]) && PlainAt(w.books, CommissionPool) && PlainAt(w.books, AgentCommission(p.agent));
    HoldAnswer(w.books, k, p);
    if PostId(k) !in w.books.transfers && Holdable(w.books, k, p) {
      HoldAgrees(w, k, p, map[]);
      var w1 := Do(w, L.DoHold(HoldId(k), HoldTransfer(p)));
      StillPlain(w.books, w1.books);
      hide Inv, Plain;
      HeldOutcome(w1, e, p, env);
    }
  }

  /** What the ledger answers to the hold of a level, between plain accounts. */
  lemma {:induction false} HoldAnswer(s: L.State, k: Key, p: Payload)
    requires CommissionPool in s.accounts && AgentCommission(p.agent) in s.accounts && p.amount > 0
    requires PlainAt(s, CommissionPool) && PlainAt(s, AgentCommission(p.agent))
    requires PostId(k) in s.transfers ==> HoldId(k) in s.transfers && !s.transfers[HoldId(k)].pending
    ensures var (t, r) := L.Hold(s, HoldId(k), HoldTransfer(p));
            && t.accounts == s.accounts
            && (PostId(k) in s.transfers || !Holdable(s, k, p) ==> t == s && r == L.Err(L.TransferIdConflict))
            && (PostId(k) !in s.transfers && Holdable(s, k, p) ==>
                  r.Ok? && HoldId(k) in t.transfers && t.transfers[HoldId(k)] == HoldTransfer(p) && PostId(k) !in t.transfers)
  {
  }

  lemma {:induction false} StillPlain(s: L.State, t: L.State)
    requires Plain(s) && t.accounts == s.accounts
    ensures Plain(t)
  {
    forall a | CommissionSide(a) ensures PlainAt(t, a) { assert PlainAt(s, a); }
  }

  /**
   One level of an accrual. A standing record answers for itself: with the same payload it is repeated, with another it is
   a conflict. Otherwise a level already paid is only marked again, a level not yet paid is paid out of the pool, and one
   whose hold stands for another payment is refused. A share of nothing is refused.
   */
  lemma {:induction false} LevelOutcome(w: World, e: Earner, p: Payload, env: Env)
    requires Inv(w, map[]) && w.life == Forever && Plain(w.books) && p.agent == e.agent
    ensures var k := Key(e.tenant, p.reference, p.level);
            var (v, ok) := AccrueOne(w, e, p, env);
            if Standing(w, k, env.now) then v == w && ok == (w.records[k].payload == p)
            else if p.amount == 0 then !ok && v.records == w.records && v.books.transfers == w.books.transfers
            else if CommPost(e.tenant, p.reference, p.level) in w.books.transfers then
              v.books.transfers == w.books.transfers && MarkedAs(w, v, k, p, env) && ok == !env.markFault(p.level)
            else if Holdable(w.books, k, p) then
              PaidTo(v.books, k, p.agent, p.amount) && MarkedAs(w, v, k, p, env) && ok == !env.markFault(p.level)
            else !ok && v.records == w.records && v.books.transfers == w.books.transfers
  {
    hide Saga, PaidTo;
    var k := KeyFor(e, p);
    assert At(w, k, map[]);
    EnsurePlain(w, CommissionPool);
    var w1 := Ensure(w, CommissionPool);
    EnsurePlain(w1, AgentCommission(e.agent));
    var w2 := Ensure(w1, AgentCommission(e.agent));
    hide Inv, Plain, At, Ensure;
    if !Standing(w, k, env.now) {
      assert AccrueOne(w, e, p, env) == Saga(w2, e, p, env);
      if p.amount == 0 { NothingDue(w2, e, p, env); } else { SagaOutcome(w2, e, p, env); }
    }
  }

  /**
   A record that was clawed back is terminal while it stands: the same payload is answered again and pays nothing,
   whatever the ledger holds. One that says posted is answered again only while its post is there.
   */
  lemma {:induction false} ClawedBackIsTerminal(w: World, e: Earner, p: Payload, env: Env)
    requires Standing(w, Key(e.tenant, p.reference, p.level), env.now)
    requires w.records[Key(e.tenant, p.reference, p.level)].payload == p
    ensures w.records[Key(e.tenant, p.reference, p.level)].status == ClawedBack ==> AccrueOne(w, e, p, env) == (w, true)
    ensures w.records[Key(e.tenant, p.reference, p.level)].status == Posted ==>
              AccrueOne(w, e, p, env) == if CommPost(e.tenant, p.reference, p.level) in w.books.transfers then (w, true)
                                         else Saga(EnsureBoth(w, e.agent), e, p, env)
  {
    hide Saga, EnsureBoth;
  }

  /** A post the ledger refuses releases the hold and drops the level's record. */
  lemma {:induction false} RefusedPost(w: World, e: Earner, p: Payload, env: Env)
    requires w.life == Forever && L.Post(w.books, HoldId(KeyFor(e, p)), PostId(KeyFor(e, p)), p.amount).1.Err?
    ensures var k, (v, ok) := KeyFor(e, p), PostAndMark(w, e, p, env);
            && !ok && v.records == w.records - {k}
            && v.books == L.Void(w.books, CommHold(e.tenant, p.reference, p.level)).0
  {
    hide L.Post, L.Void;
  }

  /** A level with nothing due is refused. */
  lemma {:induction false} NothingDue(w: World, e: Earner, p: Payload, env: Env)
    requires p.amount == 0
    ensures Saga(w, e, p, env) == (w, false)
  {
  }

  // ---------------------------------------------------------------- the loop over levels

  /** Level by level, nearest earner first: a level without a rate is skipped, one that fails ends the accrual there. */
  lemma {:induction false} LevelsInOrder(w: World, req: Request, env: Env, i: nat)
    requires i <= |req.earners|
    ensures AccrueFrom(w, req, env, |req.earners|) == (w, true)
    ensures i < |req.earners| && i + 1 !in env.rates ==> AccrueFrom(w, req, env, i) == AccrueFrom(w, req, env, i + 1)
    ensures i < |req.earners| && i + 1 in env.rates ==>
              var e, rate := req.earners[i], env.rates[i + 1];
              var p := Payload(e.agent, req.reference, i + 1, rate, req.base, ComputeKobo(req.base, rate), env.pack);
              var (w1, ok) := AccrueOne(w, e, p, env);
              AccrueFrom(w, req, env, i) == if ok then AccrueFrom(w1, req, env, i + 1) else (w1, false)
    ensures i < |req.earners| && i + 1 in env.rates && req.base * env.rates[i + 1] < UINT64 ==>
              ComputeKobo(req.base, env.rates[i + 1]) == req.base * env.rates[i + 1] / 10000
  {
    hide AccrueOne;
    if i < |req.earners| && i + 1 in env.rates && req.base * env.rates[i + 1] < UINT64 {
      SmallProduct(req.base * env.rates[i + 1]);
    }
  }

  lemma {:induction false} SmallProduct(x: nat)
    requires x < UINT64
    ensures x % UINT64 == x
  {
  }

  /** The request lacks what an accrual needs. */
  predicate Incomplete(req: Request)
  {
    req.earners == [] || req.earners[0].agent == "" || req.reference == "" || req.base == 0
  }

  /** An accrual without an agent, a reference or a base, or with nothing due, changes nothing. */
  lemma {:induction false} AccrueRefused(w: World, req: Request, env: Env)
    requires Incomplete(req) || Total(req, env.rates) == 0
    ensures Accrue(w, req, env) == (w, false)
  {
  }

  /** Any other accrual first brings the whole amount due from the treasury to the pool, once per tenant, reference and total. */
  lemma {:induction false} AccrueFunds(w: World, req: Request, env: Env)
    requires Inv(w, map[]) && w.life == Forever && Plain(w.books) && !Incomplete(req) && Total(req, env.rates) > 0
    requires CommFund(req.earners[0].tenant, req.reference, Total(req, env.rates)) !in w.books.transfers
    ensures var v, total := Accrue(w, req, env).0, Total(req, env.rates);
            var id := CommFund(req.earners[0].tenant, req.reference, total);
            && id in v.books.transfers
            && v.books.transfers[id] == L.Transfer(CommissionTreasury, CommissionPool, 700, 4, total, false)
            && MovedOnce(v.books.journal, id, CommissionTreasury, CommissionPool, total)
  {
    hide Inv, Plain, AccrueFrom, Prepared, Total, L.Direct, SameRecord;
    var total := Total(req, env.rates);
    var w1 := Prepared(w, req);
    PreparedPlain(w, req);
    FundPlain(w1, req, total);
    AccrueUnfolds(w, req, env);
    var w2 := Do(w1, L.DoDirect(FundId(req, total), FundTransfer(total)));
    SameAsItself(w2.books, FundId(req, total));
    LevelsLeaveFund(w2.books, w2, req, env, 0, FundId(req, total));
    NothingOwed(req, env);
    AccrueFromKeeps(w2, req, env, 0, map[]);
    FundMoved(w2, AccrueFrom(w2, req, env, 0).0, FundId(req, total));
  }

  lemma {:induction false} NothingOwed(req: Request, env: Env)
    ensures Steady(req, env, map[])
  {
  }

  /** What moved once and stands unchanged moved as recorded. */
  lemma {:induction false} FundMoved(w: World, v: World, id: TransferId)
    requires Inv(v, map[]) && SameRecord(w.books, v.books, id) && id in w.books.transfers && Moves(w.books.journal, id) == 1
    ensures id in v.books.transfers && v.books.transfers[id] == w.books.transfers[id]
    ensures var t := v.books.transfers[id]; MovedOnce(v.books.journal, id, t.debit, t.credit, t.amount)
  {
    MovedAsRecorded(v.books, id);
  }

  // ---------------------------------------------------------------- clawback

  /** The record belongs to the reference, and to the tenant if one is named, and was not clawed back. */
  predicate Concerned(r: Record, tenant: string, reference: string)
  {
    && r.payload.reference == reference && r.status != ClawedBack
    && (tenant != "" ==> r.tenant == tenant)
  }

  /** Reversing one record takes its amount from its agent back to the pool, once; a reversal in place counts as done. */
  lemma {:induction false} ReversalOutcome(w: World, r: Record, fault: bool)
    requires Inv(w, map[]) && w.life == Forever && Plain(w.books)
    requires KeyOf(r) in w.records && w.records[KeyOf(r)] == r
    ensures var (v, ok) := ClawOne(w, r, fault);
            var k := Key(r.tenant, r.payload.reference, r.payload.level);
            var id := CommClawback(r.tenant, r.payload.reference, r.payload.level);
            && ok == !fault && Inv(v, map[]) && v.life == Forever && Plain(v.books) && id in v.books.transfers
            && v.records == (if fault then w.records else w.records[k := r.(status := ClawedBack)])
            && (id in w.books.transfers ==> v.books.transfers == w.books.transfers)
            && (id !in w.books.transfers ==>
                  v.books.transfers == w.books.transfers[
                    id := L.Transfer(AgentCommission(r.payload.agent), CommissionPool, 700, 3, r.payload.amount, false)])
  {
    hide L.Direct, Extends, Landed, Reversed;
    assert At(w, KeyOf(r), map[]);
    assert PlainAt(w.books, CommissionPool) && PlainAt(w.books, AgentCommission(r.payload.agent));
    assert EnsureBoth(w, r.payload.agent) == w;
    PostSettled(w, KeyOf(r));
    ClawOneKeeps(w, r, fault, map[]);
    ReversalAnswer(w.books, r);
    StillPlain(w.books, L.Direct(w.books, ClawbackId(KeyOf(r)), ReversalTransfer(r.payload)).0);
    hide Inv, Plain, At;
  }

  lemma {:induction false} ReversalAnswer(s: L.State, r: Record)
    requires CommissionPool in s.accounts && AgentCommission(r.payload.agent) in s.accounts && r.payload.amount > 0
    requires PlainAt(s, CommissionPool) && PlainAt(s, AgentCommission(r.payload.agent))
    ensures var id := ClawbackId(KeyOf(r));
            var (t, d) := L.Direct(s, id, ReversalTransfer(r.payload));
            && t.accounts == s.accounts
            && (id in s.transfers ==> t == s && (d.Ok? || d.error == L.TransferIdConflict))
            && (id !in s.transfers ==> d.Ok? && t.transfers == s.transfers[id := ReversalTransfer(r.payload)])
  {
  }

  /** No later row of the listing is this record's. */
  predicate Distinct(listed: seq<Record>)
  {
    forall i, j :: 0 <= i < j < |listed| ==> KeyOf(listed[i]) != KeyOf(listed[j])
  }

  /** A record that was clawed back, with its reversal on the ledger. */
  predicate Undone(v: World, r: Record)
  {
    && KeyOf(r) in v.records && v.records[KeyOf(r)] == r.(status := ClawedBack)
    && CommClawback(r.tenant, r.payload.reference, r.payload.level) in v.books.transfers
  }

  /** The rows from `i` on are as listed. */
  predicate StoredFrom(w: World, listed: seq<Record>, i: nat)
  {
    forall j :: i <= j < |listed| ==> KeyOf(listed[j]) in w.records && w.records[KeyOf(listed[j])] == listed[j]
  }

  /** Every record among `listed[i..j]` that is concerned is undone, and what was stored under any other key is unchanged. */
  ghost predicate UndoneFrom(w: World, v: World, tenant: string, reference: string, listed: seq<Record>, i: nat)
  {
    && (forall j :: i <= j < |listed| && Concerned(listed[j], tenant, reference) ==> Undone(v, listed[j]))
    && (forall k :: (forall j :: i <= j < |listed| && Concerned(listed[j], tenant, reference) ==> KeyOf(listed[j]) != k) ==>
          (k in v.records <==> k in w.records) && (k in w.records ==> v.records[k] == w.records[k]))
    && (forall id :: id in w.books.transfers ==> id in v.books.transfers)
  }

  lemma {:induction false} ClawFromOutcome(w: World, tenant: string, reference: string, listed: seq<Record>, fault: Key -> bool, i: nat)
    requires Inv(w, map[]) && w.life == Forever && Plain(w.books) && i <= |listed| && Distinct(listed) && StoredFrom(w, listed, i)
    ensures var (v, ok) := ClawFrom(w, tenant, reference, listed, fault, i);
            && (ok <==> forall j :: i <= j < |listed| && Concerned(listed[j], tenant, reference) ==> !fault(KeyOf(listed[j])))
            && (ok ==> UndoneFrom(w, v, tenant, reference, listed, i))
    decreases |listed| - i
  {
    hide Inv, Plain, ClawOne, UndoneFrom;
    if i == |listed| {
      assert UndoneFrom(w, w, tenant, reference, listed, i) by { NothingUndone(w, tenant, reference, listed); }
    } else if Concerned(listed[i], tenant, reference) {
      var r := listed[i];
      ReversalOutcome(w, r, fault(KeyOf(r)));
      var w1 := ClawOne(w, r, fault(KeyOf(r))).0;
      if !fault(KeyOf(r)) {
        ClawFromOutcome(w1, tenant, reference, listed, fault, i + 1);
        var (v, ok) := ClawFrom(w1, tenant, reference, listed, fault, i + 1);
        if ok { UndoneMore(w, w1, v, tenant, reference, listed, i); }
      }
    } else {
      ClawFromOutcome(w, tenant, reference, listed, fault, i + 1);
      var (v, ok) := ClawFrom(w, tenant, reference, listed, fault, i + 1);
      if ok { UndoneSkip(w, v, tenant, reference, listed, i); }
    }
  }

  lemma {:induction false} NothingUndone(w: World, tenant: string, reference: string, listed: seq<Record>)
    ensures UndoneFrom(w, w, tenant, reference, listed, |listed|)
  {
  }

  lemma {:induction false} UndoneSkip(w: World, v: World, tenant: string, reference: string, listed: seq<Record>, i: nat)
    requires i < |listed| && !Concerned(listed[i], tenant, reference) && UndoneFrom(w, v, tenant, reference, listed, i + 1)
    ensures UndoneFrom(w, v, tenant, reference, listed, i)
  {
  }

  lemma {:induction false} UndoneMore(w: World, w1: World, v: World, tenant: string, reference: string, listed: seq<Record>, i: nat)
    requires i < |listed| && Distinct(listed) && Concerned(listed[i], tenant, reference)
    requires w1.records == w.records[KeyOf(listed[i]) := listed[i].(status := ClawedBack)] && Undone(w1, listed[i])
    requires forall id :: id in w.books.transfers ==> id in w1.books.transfers
    requires UndoneFrom(w1, v, tenant, reference, listed, i + 1)
    ensures UndoneFrom(w, v, tenant, reference, listed, i)
  {
  }

  /**
   A clawback of a reference, over the stored records in any order: it answers exactly when no record it concerns fails to be
   written, and then every one of those records is clawed back with its reversal on the ledger, and no other record changed.
   */
  lemma {:induction false} ClawbackOutcome(w: World, tenant: string, reference: string, listed: seq<Record>, fault: Key -> bool)
    requires Inv(w, map[]) && w.life == Forever && Plain(w.books) && Distinct(listed) && AllStored(w, listed)
    ensures var (v, ok) := Clawback(w, tenant, reference, listed, fault);
            && (reference == "" ==> v == w && !ok)
            && (reference != "" ==>
                  && (ok <==> forall j :: 0 <= j < |listed| && Concerned(listed[j], tenant, reference) ==> !fault(KeyOf(listed[j])))
                  && (ok ==> UndoneFrom(w, v, tenant, reference, listed, 0)))
  {
    ClawFromOutcome(w, tenant, reference, listed, fault, 0);
  }
}
