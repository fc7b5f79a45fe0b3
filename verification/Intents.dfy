/**
 Concurrent CreateIntent calls on one unexpired idempotency key
 (services/presumptive/payments.go:246-448): any number of request threads, each
 store or ledger call a separate step, any interleaving, any call failing, any
 thread stopping for good at any point.
 */
module Intents {
  import opened Prelude
  import opened Ids

  type Thread = nat

  /** Where a request is inside CreateIntent. `attempt` is its pass through the claim loop. */
  datatype Pc =
    | Claiming(attempt: nat)                    // about to PutIfAbsent the claim
    | LookingUp(attempt: nat)                   // lost the claim, about to read the record
    | Fetching(attempt: nat, pay: PaymentId)    // about to read the payment the record names
    | Claimed                                   // holds the claim, no hold placed yet
    | Holding(pay: PaymentId)                   // hold placed, payment row not yet written
    | Voiding(pay: PaymentId)                   // row write failed, about to void the hold
    | Releasing                                 // about to delete the claim
    | Completing(pay: PaymentId)                // row written, about to bind the key to it
    | Replied(pay: PaymentId)                   // answered with a payment
    | Refused                                   // answered with an error

  /** The stored idempotency record: in progress while `pay` is None. */
  datatype Claim = Claim(hash: nat, pay: Option<PaymentId>)

  datatype State = State(
    record: Option<Claim>,
    rows: set<PaymentId>,        // payments persisted for the key
    holds: set<PaymentId>,       // holds placed for the key and not voided
    threads: map<Thread, Pc>)

  const INITIAL := State(None, {}, {}, map[])

  /** One call of one thread: the payload hash it carries, and what the environment answers. */
  datatype Move = Move(thread: Thread, hash: nat, fault: bool, refused: bool, drawn: PaymentId)

  function At(s: State, t: Thread): Pc
  {
    if t in s.threads then s.threads[t] else Claiming(0)
  }

  function Go(s: State, t: Thread, pc: Pc): State
  {
    s.(threads := s.threads[t := pc])
  }

  /** A failed pass loops once; the second failure is an error the client may retry. */
  function Again(attempt: nat): Pc
  {
    if attempt > 0 then Refused else Claiming(attempt + 1)
  }

  function Step(s: State, m: Move): State
  {
    var t := m.thread;
    match At(s, t)
    case Claiming(attempt) =>
      if m.fault then Go(s, t, Refused)
      else if s.record.None? then Go(s.(record := Some(Claim(m.hash, None))), t, Claimed)
      else Go(s, t, LookingUp(attempt))
    case LookingUp(attempt) =>
      if m.fault then Go(s, t, Refused)
      else if s.record.None? then Go(s, t, Again(attempt))
      else if s.record.value.hash != m.hash then Go(s, t, Refused)
      else if s.record.value.pay.None? then Go(s, t, Refused)
      else Go(s, t, Fetching(attempt, s.record.value.pay.value))
    case Fetching(attempt, pay) =>
      if m.fault || pay !in s.rows then Go(s, t, Again(attempt)) else Go(s, t, Replied(pay))
    case Claimed =>
      // refused: unknown provider, duplicate levy, exempt, graduated, zero levy, or a ledger refusal
      if m.refused then Go(s, t, Releasing)
      else Go(s.(holds := s.holds + {m.drawn}), t, Holding(m.drawn))
    case Holding(pay) =>
      if m.fault then Go(s, t, Voiding(pay)) else Go(s.(rows := s.rows + {pay}), t, Completing(pay))
    case Voiding(pay) => Go(s.(holds := s.holds - {pay}), t, Releasing)
    case Releasing => Go(if m.fault then s else s.(record := None), t, Refused)
    case Completing(pay) =>
      // a failed completion keeps the claim, so no retry can create a second hold
      if m.fault then Go(s, t, Refused) else Go(s.(record := Some(Claim(m.hash, Some(pay)))), t, Replied(pay))
    case Replied(_) => s
    case Refused => s
  }

  function Run(s: State, moves: seq<Move>): State
  {
    if moves == [] then s else Step(Run(s, moves[..|moves| - 1]), moves[|moves| - 1])
  }

  // ---------------------------------------------------------------- the invariant

  /** The thread won the claim and has not given it up. */
  predicate Owns(pc: Pc)
  {
    pc.Claimed? || pc.Holding? || pc.Voiding? || pc.Releasing? || pc.Completing?
  }

  /** What each program point knows. */
  predicate Knows(s: State, pc: Pc)
  {
    match pc
    case Claimed => s.rows == {} && s.holds == {}
    case Releasing => s.rows == {} && s.holds == {}
    case Holding(pay) => s.rows == {} && s.holds == {pay}
    case Voiding(pay) => s.rows == {} && s.holds == {pay}
    case Completing(pay) => s.rows == {pay} && s.holds == {pay}
    case Replied(pay) => s.rows == {pay} && s.record.Some?
    case Fetching(_, pay) => s.rows == {pay} && s.record.Some?
    case _ => true
  }

  /** No thread is between winning the claim and giving it up. */
  predicate Quiescent(s: State)
  {
    forall t :: t in s.threads ==> !Owns(s.threads[t])
  }

  ghost predicate Inv(s: State)
  {
    && (forall t :: t in s.threads ==> Knows(s, s.threads[t]))
    && (forall t, u :: t in s.threads && u in s.threads && Owns(s.threads[t]) && Owns(s.threads[u]) ==> t == u)
    && (forall t :: t in s.threads && Owns(s.threads[t]) ==> s.record.Some? && s.record.value.pay.None?)
    && (s.record.None? ==> s.rows == {} && s.holds == {})
    && (s.record.Some? && s.record.value.pay.Some? ==> s.rows == {s.record.value.pay.value})
    && (Quiescent(s) ==> s.holds == s.rows)
    && |s.rows| <= 1 && |s.holds| <= 1
  }

  /** From `s` to `s'` the claim's holder `t` moved to `pc`: what each kind of move must respect. */
  ghost predicate Moved(s: State, s': State, t: Thread, pc: Pc)
  {
    && s'.threads == s.threads[t := pc] && Knows(s', pc)
    && (s.rows != {} ==> s'.rows == s.rows && s'.record.Some?)
    && (s'.record.None? ==> s'.rows == {} && s'.holds == {})
    && (s'.record.Some? && s'.record.value.pay.Some? ==> s'.rows == {s'.record.value.pay.value})
    && (if Owns(pc) then s'.record == s.record else s'.holds == s'.rows)
    && |s'.rows| <= 1 && |s'.holds| <= 1
  }

  lemma {:induction false} MovedKeeps(s: State, s': State, t: Thread, pc: Pc)
    requires Inv(s) && t in s.threads && Owns(s.threads[t]) && Moved(s, s', t, pc)
    ensures Inv(s')
  {
    assert forall u :: u in s.threads && u != t ==> !Owns(s.threads[u]);
    forall u | u in s'.threads ensures Knows(s', s'.threads[u]) && (Owns(s'.threads[u]) ==> u == t) {
      if u != t { assert Knows(s, s.threads[u]); }
    }
    assert s'.threads[t] == pc;
  }

  /** A step of the claim's holder stands still or is a move of its kind. */
  lemma {:induction false} OwnerMoves(s: State, m: Move)
    requires m.thread in s.threads && Owns(s.threads[m.thread]) && Knows(s, s.threads[m.thread])
    requires s.record.Some? && s.record.value.pay.None?
    ensures var s' := Step(s, m);
            s.rows <= s'.rows && (s' == s || (m.thread in s'.threads && Moved(s, s', m.thread, s'.threads[m.thread])))
  {
    var t, s' := m.thread, Step(s, m);
    match s.threads[t]
    case Claimed => assert s.holds + {m.drawn} == {m.drawn};
    case Holding(pay) => assert s.rows + {pay} == {pay};
    case Voiding(pay) => assert s.holds - {pay} == {};
    case _ =>
  }

  /** The claim's holder steps on or gives the claim up; everyone else is unaffected. */
  lemma {:induction false} OwnerKeeps(s: State, m: Move)
    requires Inv(s) && m.thread in s.threads && Owns(s.threads[m.thread])
    ensures Inv(Step(s, m)) && s.rows <= Step(s, m).rows
  {
    hide Moved, Step;
    OwnerMoves(s, m);
    if Step(s, m) != s { MovedKeeps(s, Step(s, m), m.thread, Step(s, m).threads[m.thread]); }
  }

  /** Winning the claim: nobody else can hold it, and nothing was created under it. */
  lemma {:induction false} ClaimKeeps(s: State, t: Thread, hash: nat)
    requires Inv(s) && s.record.None?
    ensures Inv(Go(s.(record := Some(Claim(hash, None))), t, Claimed))
  {
    assert forall u :: u in s.threads ==> !Owns(s.threads[u]);
    var s' := Go(s.(record := Some(Claim(hash, None))), t, Claimed);
    assert t in s'.threads && Owns(s'.threads[t]);
  }

  /** A thread without the claim moves only its own program counter. */
  lemma {:induction false} WalkKeeps(s: State, t: Thread, pc: Pc)
    requires Inv(s) && !Owns(At(s, t)) && !Owns(pc) && Knows(s, pc)
    ensures Inv(Go(s, t, pc))
  {
    var s' := Go(s, t, pc);
    if Quiescent(s') {
      forall u | u in s.threads ensures !Owns(s.threads[u]) { assert u in s'.threads; }
    }
  }

  lemma {:induction false} OtherKeeps(s: State, m: Move)
    requires Inv(s) && !Owns(At(s, m.thread))
    ensures Inv(Step(s, m)) && s.rows <= Step(s, m).rows
  {
    var t := m.thread;
    if At(s, t).Claiming? && !m.fault && s.record.None? {
      ClaimKeeps(s, t, m.hash);
    } else if Step(s, m) != s {
      assert t in s.threads ==> Knows(s, s.threads[t]);
      WalkKeeps(s, t, At(Step(s, m), t));
    }
  }

  lemma {:induction false} StepKeeps(s: State, m: Move)
    requires Inv(s)
    ensures Inv(Step(s, m)) && s.rows <= Step(s, m).rows
  {
    if Owns(At(s, m.thread)) { OwnerKeeps(s, m); } else { OtherKeeps(s, m); }
  }

  lemma {:induction false} RunKeeps(s: State, moves: seq<Move>)
    requires Inv(s)
    ensures Inv(Run(s, moves)) && s.rows <= Run(s, moves).rows
  {
    if moves != [] {
      RunKeeps(s, moves[..|moves| - 1]);
      StepKeeps(Run(s, moves[..|moves| - 1]), moves[|moves| - 1]);
    }
  }

  /**
   In every interleaving at most one payment is ever persisted for the key and
   at most one un-voided hold belongs to it.
   */
  lemma {:induction false} OnePaymentPerKey(moves: seq<Move>)
    ensures var s := Run(INITIAL, moves);
            && |s.rows| <= 1 && |s.holds| <= 1
            && (Quiescent(s) ==> s.holds == s.rows)
  {
    RunKeeps(INITIAL, moves);
  }

  /** Every successful reply, whenever given, names the one persisted payment, for good. */
  lemma {:induction false} RepliesAgree(moves: seq<Move>, later: seq<Move>, t: Thread, u: Thread)
    requires At(Run(INITIAL, moves), t).Replied? && At(Run(Run(INITIAL, moves), later), u).Replied?
    ensures At(Run(INITIAL, moves), t).pay == At(Run(Run(INITIAL, moves), later), u).pay
    ensures Run(Run(INITIAL, moves), later).rows == {At(Run(INITIAL, moves), t).pay}
  {
    var s := Run(INITIAL, moves);
    var s' := Run(s, later);
    RunKeeps(INITIAL, moves);
    RunKeeps(s, later);
    assert Knows(s, s.threads[t]) && Knows(s', s'.threads[u]);
    assert At(s, t).pay in s'.rows;
  }

  /** Nothing failing, a first request persists its payment and replies with it, and a retry replays it. */
  lemma {:induction false} FirstRequestReplays(hash: nat, pay: PaymentId)
    ensures var first := Move(0, hash, false, false, pay);
            var retry := Move(1, hash, false, false, "");
            var s := Step(Step(Step(Step(INITIAL, first), first), first), first);
            var r := Step(Step(Step(s, retry), retry), retry);
            At(s, 0) == Replied(pay) && s.rows == {pay} && At(r, 1) == Replied(pay) && r.rows == {pay}
  {
    var first := Move(0, hash, false, false, pay);
    var retry := Move(1, hash, false, false, "");
    var s1 := Step(INITIAL, first);
    var s2 := Step(s1, first);
    var s3 := Step(s2, first);
    var s4 := Step(s3, first);
    assert At(s1, 0) == Claimed && At(s2, 0) == Holding(pay) && At(s3, 0) == Completing(pay);
    var r1 := Step(s4, retry);
    assert At(r1, 1) == LookingUp(0);
    var r2 := Step(r1, retry);
    assert At(r2, 1) == Fetching(0, pay);
  }

  // ---------------------------------------------------------------- one request per key

  /** Each thread carries one payload. */
  ghost predicate Faithful(moves: seq<Move>, hashOf: Thread -> nat)
  {
    forall i :: 0 <= i < |moves| ==> moves[i].hash == hashOf(moves[i].thread)
  }

  /** The thread got past the check of its payload against the record. */
  predicate Matched(pc: Pc)
  {
    Owns(pc) || pc.Fetching? || pc.Replied?
  }

  ghost predicate Agreed(s: State, hashOf: Thread -> nat)
  {
    forall t :: t in s.threads && Matched(s.threads[t]) ==> s.record.Some? && s.record.value.hash == hashOf(t)
  }

  lemma {:induction false} StepAgreed(s: State, m: Move, hashOf: Thread -> nat)
    requires Inv(s) && Agreed(s, hashOf) && m.hash == hashOf(m.thread)
    ensures Agreed(Step(s, m), hashOf)
  {
    var v, t := Step(s, m), m.thread;
    assert forall u :: u in v.threads && u != t ==> u in s.threads && v.threads[u] == s.threads[u];
    hide Inv, Step, Matched, Agreed;
    forall u | u in v.threads && Matched(v.threads[u]) ensures v.record.Some? && v.record.value.hash == hashOf(u) {
      if u == t { MatchedNow(s, m, hashOf); } else { RecordStays(s, m, u, hashOf); }
    }
    assert Agreed(v, hashOf) by { AgreedIf(v, hashOf); }
  }

  lemma {:induction false} AgreedIf(s: State, hashOf: Thread -> nat)
    requires forall t :: t in s.threads && Matched(s.threads[t]) ==> s.record.Some? && s.record.value.hash == hashOf(t)
    ensures Agreed(s, hashOf)
  {
  }

  /** The stepping thread is matched only by a record with its own payload. */
  lemma {:induction false} MatchedNow(s: State, m: Move, hashOf: Thread -> nat)
    requires Agreed(s, hashOf) && m.hash == hashOf(m.thread) && Matched(At(Step(s, m), m.thread))
    ensures Step(s, m).record.Some? && Step(s, m).record.value.hash == m.hash
  {
  }

  /** A record that another matched thread relies on keeps its payload. */
  lemma {:induction false} RecordStays(s: State, m: Move, u: Thread, hashOf: Thread -> nat)
    requires Inv(s) && Agreed(s, hashOf) && m.hash == hashOf(m.thread)
    requires u != m.thread && u in s.threads && Matched(s.threads[u])
    ensures Step(s, m).record.Some? && Step(s, m).record.value.hash == hashOf(u)
  {
  }

  lemma {:induction false} RunAgreed(moves: seq<Move>, hashOf: Thread -> nat)
    requires Faithful(moves, hashOf)
    ensures Agreed(Run(INITIAL, moves), hashOf)
  {
    if moves != [] {
      var n := |moves| - 1;
      RunAgreed(moves[..n], hashOf);
      RunKeeps(INITIAL, moves[..n]);
      StepAgreed(Run(INITIAL, moves[..n]), moves[n], hashOf);
    }
  }

  /** In every interleaving all requests that are answered under the key carry the same payload: another one is never given its payment. */
  lemma {:induction false} RepliesSameRequest(moves: seq<Move>, hashOf: Thread -> nat, t: Thread, u: Thread)
    requires Faithful(moves, hashOf)
    requires At(Run(INITIAL, moves), t).Replied? && At(Run(INITIAL, moves), u).Replied?
    ensures hashOf(t) == hashOf(u)
  {
    RunAgreed(moves, hashOf);
  }

  /** A request that is refused, or whose payment cannot be stored, leaves nothing behind: the key is free again. */
  lemma {:induction false} FailedRequestFrees(hash: nat, pay: PaymentId)
    ensures var ok := Move(0, hash, false, false, pay);
            && var s := Step(Step(Step(INITIAL, ok), ok.(refused := true)), ok);
               s == INITIAL.(threads := map[0 := Refused])
    ensures var ok := Move(0, hash, false, false, pay);
            && var s := Step(Step(Step(Step(Step(INITIAL, ok), ok), ok.(fault := true)), ok), ok);
               s == INITIAL.(threads := map[0 := Refused])
  {
    var ok := Move(0, hash, false, false, pay);
    var s1 := Step(INITIAL, ok);
    assert At(s1, 0) == Claimed;
    var r2 := Step(s1, ok.(refused := true));
    assert At(r2, 0) == Releasing;
    var s2 := Step(s1, ok);
    assert At(s2, 0) == Holding(pay);
    var s3 := Step(s2, ok.(fault := true));
    assert At(s3, 0) == Voiding(pay);
    var s4 := Step(s3, ok);
    assert At(s4, 0) == Releasing && s4.holds == {};
  }

  /**
   A request that lost the claim: with another payload, or while the first request is in progress, it is refused; with the
   same payload and a payment it goes on to fetch that payment; and when the claim or the payment is gone it claims once more,
   and only once.
   */
  lemma {:induction false} LostClaimOutcome(s: State, m: Move, attempt: nat, pay: PaymentId)
    requires !m.fault
    ensures At(s, m.thread) == LookingUp(attempt) && s.record.Some? && s.record.value.hash != m.hash ==>
              Step(s, m) == s.(threads := s.threads[m.thread := Refused])
    ensures At(s, m.thread) == LookingUp(attempt) && s.record == Some(Claim(m.hash, None)) ==>
              Step(s, m) == s.(threads := s.threads[m.thread := Refused])
    ensures At(s, m.thread) == LookingUp(attempt) && s.record == Some(Claim(m.hash, Some(pay))) ==>
              Step(s, m) == s.(threads := s.threads[m.thread := Fetching(attempt, pay)])
    ensures At(s, m.thread) == LookingUp(0) && s.record.None? ==> Step(s, m) == s.(threads := s.threads[m.thread := Claiming(1)])
    ensures At(s, m.thread) == Fetching(0, pay) && pay !in s.rows ==>
              Step(s, m) == s.(threads := s.threads[m.thread := Claiming(1)])
    ensures At(s, m.thread) == LookingUp(1) && s.record.None? ==> Step(s, m) == s.(threads := s.threads[m.thread := Refused])
    ensures At(s, m.thread) == Fetching(1, pay) && pay !in s.rows ==>
              Step(s, m) == s.(threads := s.threads[m.thread := Refused])
  {
  }
}
