/** What every run of ledger operations keeps. */
module LedgerLaws {
  import opened Prelude
  import opened Ids
  import opened Ledger

  // ---------------------------------------------------------------- definitions

  /** Pending amount a transfer takes out of (or brings into) account `a`. */
  ghost function HeldFrom(a: AccountId): (TransferId, Transfer) -> int
  {
    (id: TransferId, t: Transfer) => if t.pending && t.debit == a then t.amount else 0
  }

  ghost function HeldFor(a: AccountId): (TransferId, Transfer) -> int
  {
    (id: TransferId, t: Transfer) => if t.pending && t.credit == a then t.amount else 0
  }

  /** Replay of the journal: posted money out of and into account `a`. */
  function MovedFrom(j: Journal, a: AccountId): int
  {
    match j
    case Empty => 0
    case Log(past, e) => MovedFrom(past, a) + if e.Moved? && e.debit == a then e.amount else 0
  }

  function MovedInto(j: Journal, a: AccountId): int
  {
    match j
    case Empty => 0
    case Log(past, e) => MovedInto(past, a) + if e.Moved? && e.credit == a then e.amount else 0
  }

  /** How often the hold `id` was consumed, by a post or by a void. */
  function Uses(j: Journal, id: TransferId): nat
  {
    match j
    case Empty => 0
    case Log(past, e) => Uses(past, id) + if !e.Held? && e.hold == id then 1 else 0
  }

  /** How often posted money moved under the transfer id `id`, and how much in all. */
  function Moves(j: Journal, id: TransferId): nat
  {
    match j
    case Empty => 0
    case Log(past, e) => Moves(past, id) + if e.Moved? && e.id == id then 1 else 0
  }

  function AmountMoved(j: Journal, id: TransferId): nat
  {
    match j
    case Empty => 0
    case Log(past, e) => AmountMoved(past, id) + if e.Moved? && e.id == id then e.amount else 0
  }

  predicate Logged(j: Journal, e: Entry)
  {
    j.Log? && (j.entry == e || Logged(j.past, e))
  }

  /** The last entry that moved money under the transfer id `id`. */
  function Under(j: Journal, id: TransferId): (r: Option<Entry>)
    ensures r.Some? ==> r.value.Moved? && r.value.id == id
  {
    match j
    case Empty => None
    case Log(past, e) => if e.Moved? && e.id == id then Some(e) else Under(past, id)
  }

  /** Posted money moved under `id` exactly once: `amount`, from `debit` to `credit`. */
  ghost predicate MovedOnce(j: Journal, id: TransferId, debit: AccountId, credit: AccountId, amount: nat)
  {
    && Moves(j, id) == 1 && AmountMoved(j, id) == amount
    && exists hold :: Logged(j, Moved(id, hold, debit, credit, amount))
  }

  /** A record names open accounts, holds a positive amount while pending, and a random id was really drawn. */
  ghost predicate ClosedAt(s: State, id: TransferId)
  {
    id in s.transfers ==>
      && id != NoTransfer
      && s.transfers[id].debit in s.accounts && s.transfers[id].credit in s.accounts
      && (s.transfers[id].pending ==> s.transfers[id].amount > 0)
      && (id.Random? ==> id.n < s.minted)
  }

  ghost predicate Closed(s: State)
  {
    && s.accounts.Keys == s.balances.Keys
    && NoAccount !in s.accounts
    && forall id :: ClosedAt(s, id)
  }

  /** The account's pending columns are the sums of its still-pending transfers. */
  ghost predicate HeldAt(s: State, a: AccountId)
  {
    && BalanceOf(s, a).debitsPending == SumMap(s.transfers, HeldFrom(a))
    && BalanceOf(s, a).creditsPending == SumMap(s.transfers, HeldFor(a))
  }

  ghost predicate HeldMatches(s: State)
  {
    forall a :: HeldAt(s, a)
  }

  /** The account's posted columns are the replay of the journal. */
  ghost predicate PostedAt(s: State, a: AccountId)
  {
    && BalanceOf(s, a).debitsPosted == MovedFrom(s.journal, a)
    && BalanceOf(s, a).creditsPosted == MovedInto(s.journal, a)
  }

  ghost predicate PostedMatches(s: State)
  {
    forall a :: PostedAt(s, a)
  }

  /** The hold is consumed at most once, and not while pending; the id moves money at most once. */
  ghost predicate OnceAt(s: State, id: TransferId)
  {
    && (id != NoTransfer ==> Uses(s.journal, id) <= 1)
    && Moves(s.journal, id) <= 1
    && (id != NoTransfer && (id !in s.transfers || s.transfers[id].pending) ==>
          Uses(s.journal, id) == 0 && Moves(s.journal, id) == 0)
  }

  ghost predicate OnceOnly(s: State)
  {
    forall id :: OnceAt(s, id)
  }

  /** What the journal says moved under the id is what its settled record says. */
  ghost predicate BackedAt(s: State, id: TransferId)
  {
    Under(s.journal, id).Some? ==>
      var e := Under(s.journal, id).value;
      && id in s.transfers && !s.transfers[id].pending
      && s.transfers[id].debit == e.debit && s.transfers[id].credit == e.credit && s.transfers[id].amount == e.amount
  }

  ghost predicate Backed(s: State)
  {
    forall id :: BackedAt(s, id)
  }

  ghost function DebitsPostedColumn(): (AccountId, Balance) -> int { (a: AccountId, b: Balance) => b.debitsPosted }
  ghost function CreditsPostedColumn(): (AccountId, Balance) -> int { (a: AccountId, b: Balance) => b.creditsPosted }
  ghost function DebitsPendingColumn(): (AccountId, Balance) -> int { (a: AccountId, b: Balance) => b.debitsPending }
  ghost function CreditsPendingColumn(): (AccountId, Balance) -> int { (a: AccountId, b: Balance) => b.creditsPending }

  /** Total debits equal total credits, posted and pending. */
  ghost predicate Conserved(s: State)
  {
    && SumMap(s.balances, DebitsPostedColumn()) == SumMap(s.balances, CreditsPostedColumn())
    && SumMap(s.balances, DebitsPendingColumn()) == SumMap(s.balances, CreditsPendingColumn())
  }

  /** DEBITS_MUST_NOT_EXCEED_CREDITS and CREDITS_MUST_NOT_EXCEED_DEBITS on posted amounts. */
  ghost predicate CapAt(s: State, a: AccountId)
  {
    a in s.accounts ==>
      && (s.accounts[a].debitsCapped ==> BalanceOf(s, a).debitsPosted <= BalanceOf(s, a).creditsPosted)
      && (s.accounts[a].creditsCapped ==> BalanceOf(s, a).creditsPosted <= BalanceOf(s, a).debitsPosted)
  }

  ghost predicate PostedWithinCap(s: State)
  {
    forall a :: CapAt(s, a)
  }

  ghost predicate WellKept(s: State)
  {
    && Closed(s) && HeldMatches(s) && PostedMatches(s) && OnceOnly(s) && Backed(s)
    && Conserved(s) && PostedWithinCap(s)
  }

  /** A post of `hold` under this id spoils nothing: the id names no other pending hold and no money moved under it yet. */
  predicate Harmless(s: State, hold: TransferId, post: TransferId)
  {
    post == hold || post !in s.transfers || (!s.transfers[post].pending && Moves(s.journal, post) == 0)
  }

  /** No caller guesses a random id, and a post that consumes a hold is given a harmless one. */
  predicate Sensible(s: State, op: Op)
  {
    match op
    case DoCreate(_) => true
    case DoDirect(id, _) => !id.Random?
    case DoHold(id, _) => !id.Random?
    case DoPost(hold, post, _) =>
      !post.Random? && (hold in s.transfers && s.transfers[hold].pending ==> Harmless(s, hold, post))
    case DoVoid(_) => true
  }

  ghost predicate SensibleRun(s: State, ops: seq<Op>)
  {
    ops == [] || (SensibleRun(s, ops[..|ops| - 1]) && Sensible(Run(s, ops[..|ops| - 1]), ops[|ops| - 1]))
  }

  /** No caller guesses a random id, and a post that consumes a hold is given an unused id. */
  predicate Disciplined(s: State, op: Op)
  {
    match op
    case DoCreate(_) => true
    case DoDirect(id, _) => !id.Random?
    case DoHold(id, _) => !id.Random?
    case DoPost(hold, post, _) =>
      !post.Random? && (hold in s.transfers && s.transfers[hold].pending ==> post !in s.transfers)
    case DoVoid(_) => true
  }

  ghost predicate DisciplinedRun(s: State, ops: seq<Op>)
  {
    ops == [] || (DisciplinedRun(s, ops[..|ops| - 1]) && Disciplined(Run(s, ops[..|ops| - 1]), ops[|ops| - 1]))
  }

  // ---------------------------------------------------------------- columns

  /** From `m` to `n` the pending sums change by `delta` at `d` (debits) and at `c` (credits) and nowhere else. */
  ghost predicate HeldStep(m: map<TransferId, Transfer>, n: map<TransferId, Transfer>,
                           d: AccountId, c: AccountId, delta: int, a: AccountId)
  {
    && SumMap(n, HeldFrom(a)) == SumMap(m, HeldFrom(a)) + (if a == d then delta else 0)
    && SumMap(n, HeldFor(a)) == SumMap(m, HeldFor(a)) + (if a == c then delta else 0)
  }

  ghost predicate HeldShift(m: map<TransferId, Transfer>, n: map<TransferId, Transfer>,
                            d: AccountId, c: AccountId, delta: int)
  {
    forall a :: HeldStep(m, n, d, c, delta, a)
  }

  /** Pending money a map holds under one id. */
  function PendingUnder(m: map<TransferId, Transfer>, id: TransferId): int
  {
    if id in m && m[id].pending then m[id].amount else 0
  }

  /** Writing a record whose accounts agree with the pending record it replaces, if any. */
  lemma {:induction false} HeldWrite(m: map<TransferId, Transfer>, id: TransferId, t: Transfer)
    requires id in m && m[id].pending ==> m[id].debit == t.debit && m[id].credit == t.credit
    ensures HeldShift(m, m[id := t], t.debit, t.credit, (if t.pending then t.amount else 0) - PendingUnder(m, id))
  {
    var n, delta := m[id := t], (if t.pending then t.amount else 0) - PendingUnder(m, id);
    forall a ensures HeldStep(m, n, t.debit, t.credit, delta, a) {
      SumMapUpdate(m, HeldFrom(a), id, t);
      SumMapUpdate(m, HeldFor(a), id, t);
    }
  }

  lemma {:induction false} HeldThen(m: map<TransferId, Transfer>, n: map<TransferId, Transfer>, o: map<TransferId, Transfer>,
                                    d: AccountId, c: AccountId, delta: int, d': AccountId, c': AccountId)
    requires HeldShift(m, n, d, c, delta) && HeldShift(n, o, d', c', 0)
    ensures HeldShift(m, o, d, c, delta)
  {
    forall a ensures HeldStep(m, o, d, c, delta, a) {
      assert HeldStep(m, n, d, c, delta, a) && HeldStep(n, o, d', c', 0, a);
    }
  }

  /** How far total posted debits exceed total posted credits, and the same for pending. */
  ghost function PostedGap(m: map<AccountId, Balance>): int
  {
    SumMap(m, DebitsPostedColumn()) - SumMap(m, CreditsPostedColumn())
  }

  ghost function PendingGap(m: map<AccountId, Balance>): int
  {
    SumMap(m, DebitsPendingColumn()) - SumMap(m, CreditsPendingColumn())
  }

  lemma {:induction false} SetBalance(m: map<AccountId, Balance>, a: AccountId, b: Balance)
    requires a in m
    ensures PostedGap(m[a := b]) == PostedGap(m) + (b.debitsPosted - m[a].debitsPosted) - (b.creditsPosted - m[a].creditsPosted)
    ensures PendingGap(m[a := b]) == PendingGap(m) + (b.debitsPending - m[a].debitsPending) - (b.creditsPending - m[a].creditsPending)
  {
    SumMapUpdate(m, DebitsPostedColumn(), a, b);
    SumMapUpdate(m, CreditsPostedColumn(), a, b);
    SumMapUpdate(m, DebitsPendingColumn(), a, b);
    SumMapUpdate(m, CreditsPendingColumn(), a, b);
  }

  /** Shift is a double entry: the totals stay balanced. */
  lemma {:induction false} ShiftConserves(s: State, d: AccountId, c: AccountId, pending: int, posted: int)
    requires d in s.balances && c in s.balances && Conserved(s)
    ensures Conserved(Shift(s, d, c, pending, posted))
  {
    var db := s.balances[d];
    var b := db.(debitsPending := db.debitsPending + pending, debitsPosted := db.debitsPosted + posted);
    var m := s.balances[d := b];
    var b2 := m[c].(creditsPending := m[c].creditsPending + pending, creditsPosted := m[c].creditsPosted + posted);
    SetBalance(s.balances, d, b);
    SetBalance(m, c, b2);
    assert Shift(s, d, c, pending, posted).balances == m[c := b2];
    assert PostedGap(m[c := b2]) == 0 && PendingGap(m[c := b2]) == 0;
  }

  // ---------------------------------------------------------------- one entry

  /**
   `t` follows `s` by one double entry: `pending` and `posted` are added to the
   debit columns of `d` and the credit columns of `c`, and `e` is logged.
   */
  ghost predicate Entered(s: State, t: State, d: AccountId, c: AccountId, pending: int, posted: int, e: Entry)
  {
    && d in s.balances && c in s.balances
    && t.accounts == s.accounts
    && t.balances == Shift(s, d, c, pending, posted).balances
    && t.minted == s.minted + 1
    && t.journal == Log(s.journal, e)
    && (if e.Moved? then e.debit == d && e.credit == c && e.amount == posted else posted == 0)
  }

  lemma {:induction false} EnteredPosted(s: State, t: State, d: AccountId, c: AccountId, pending: int, posted: int, e: Entry)
    requires PostedMatches(s) && Entered(s, t, d, c, pending, posted, e)
    ensures PostedMatches(t)
  {
    forall a ensures PostedAt(t, a) {
      assert PostedAt(s, a);
    }
  }

  lemma {:induction false} EnteredHeld(s: State, t: State, d: AccountId, c: AccountId, pending: int, posted: int, e: Entry)
    requires HeldMatches(s) && Entered(s, t, d, c, pending, posted, e)
    requires HeldShift(s.transfers, t.transfers, d, c, pending)
    ensures HeldMatches(t)
  {
    forall a ensures HeldAt(t, a) {
      assert HeldAt(s, a) && HeldStep(s.transfers, t.transfers, d, c, pending, a);
    }
  }

  /** Records of `t` extend those of `s`, and `e` consumes only a pending hold and moves only under an id that never moved. */
  ghost predicate Recorded(s: State, t: State, e: Entry)
  {
    && (forall id :: id in s.transfers ==> id in t.transfers && (t.transfers[id].pending ==> s.transfers[id].pending))
    && (!e.Held? && e.hold != NoTransfer ==>
          e.hold in s.transfers && s.transfers[e.hold].pending && !t.transfers[e.hold].pending)
    && (e.Moved? ==> e.id != NoTransfer && Moves(s.journal, e.id) == 0 && Records(t, e))
  }

  /** The settled record under the entry's id says what the entry says. */
  predicate Records(t: State, e: Entry)
    requires e.Moved?
  {
    && e.id in t.transfers && !t.transfers[e.id].pending
    && t.transfers[e.id].debit == e.debit && t.transfers[e.id].credit == e.credit && t.transfers[e.id].amount == e.amount
  }

  /** Records under which money moved stay as they are. */
  ghost predicate Stays(s: State, t: State, id: TransferId)
  {
    id in s.transfers && !s.transfers[id].pending && Moves(s.journal, id) > 0 ==>
      id in t.transfers && t.transfers[id] == s.transfers[id]
  }

  /** Logging `e` keeps the once-only facts when its hold was pending and its id unused. */
  lemma {:induction false} EnteredOnce(s: State, t: State, e: Entry)
    requires OnceOnly(s) && t.journal == Log(s.journal, e) && Recorded(s, t, e)
    ensures OnceOnly(t)
  {
    forall id ensures OnceAt(t, id) {
      assert OnceAt(s, id);
    }
  }

  lemma {:induction false} UnderMoves(j: Journal, id: TransferId)
    ensures Under(j, id).Some? <==> Moves(j, id) > 0
    ensures Under(j, id).Some? ==>
              var e := Under(j, id).value; e.Moved? && e.id == id && Logged(j, e) && (Moves(j, id) == 1 ==> AmountMoved(j, id) == e.amount)
  {
    if j.Log? {
      UnderMoves(j.past, id);
      if Moves(j.past, id) == 0 { NoMovesNoAmount(j.past, id); }
    }
  }

  lemma {:induction false} EnteredBacked(s: State, t: State, e: Entry)
    requires Backed(s) && t.journal == Log(s.journal, e) && Recorded(s, t, e) && forall id :: Stays(s, t, id)
    ensures Backed(t)
  {
    forall id ensures BackedAt(t, id) {
      assert BackedAt(s, id) && Stays(s, t, id);
      UnderMoves(s.journal, id);
    }
  }

  /** A move under an id that moved once went between the accounts of its record, and moved the recorded amount. */
  lemma {:induction false} MovedAsRecorded(s: State, id: TransferId)
    requires WellKept(s) && id in s.transfers && Moves(s.journal, id) == 1
    ensures MovedOnce(s.journal, id, s.transfers[id].debit, s.transfers[id].credit, s.transfers[id].amount)
  {
    assert BackedAt(s, id);
    UnderMoves(s.journal, id);
    var e := Under(s.journal, id).value;
    assert e == Moved(id, e.hold, e.debit, e.credit, e.amount);
  }

  /** The one proof behind every operation that writes an entry. */
  lemma {:induction false} EnteredKeeps(s: State, t: State, d: AccountId, c: AccountId, pending: int, posted: int, e: Entry)
    requires WellKept(s) && Entered(s, t, d, c, pending, posted, e) && Recorded(s, t, e)
    requires HeldShift(s.transfers, t.transfers, d, c, pending) && forall id :: Stays(s, t, id)
    requires Closed(t) && PostedWithinCap(t)
    ensures WellKept(t)
  {
    EnteredPosted(s, t, d, c, pending, posted, e);
    EnteredHeld(s, t, d, c, pending, posted, e);
    EnteredOnce(s, t, e);
    EnteredBacked(s, t, e);
    ShiftConserves(s, d, c, pending, posted);
  }

  // ---------------------------------------------------------------- each operation

  /** `t` is `s` with the accounts `ids` opened; no balance, transfer or journal entry changes. */
  ghost predicate Opened(s: State, t: State, ids: set<AccountId>)
  {
    && t.transfers == s.transfers && t.journal == s.journal && t.minted == s.minted
    && t.accounts.Keys == s.accounts.Keys + ids
    && (forall a :: BalanceOf(t, a) == BalanceOf(s, a))
    && (forall a :: a in s.accounts && a !in ids ==> t.accounts[a] == s.accounts[a])
  }

  lemma {:induction false} OpenOne(s: State, spec: AccountSpec)
    requires WellKept(s) && spec.id != NoAccount && BalanceOf(s, spec.id) == ZERO_BALANCE
    ensures var t := s.(accounts := s.accounts[spec.id := spec.account], balances := s.balances[spec.id := ZERO_BALANCE]);
            WellKept(t) && Opened(s, t, {spec.id})
  {
    var t := s.(accounts := s.accounts[spec.id := spec.account], balances := s.balances[spec.id := ZERO_BALANCE]);
    OpenConserves(s.balances, spec.id);
    forall a ensures BalanceOf(t, a) == BalanceOf(s, a) && HeldAt(t, a) && PostedAt(t, a) && CapAt(t, a) {
      assert HeldAt(s, a) && PostedAt(s, a) && CapAt(s, a);
    }
    forall id ensures ClosedAt(t, id) && OnceAt(t, id) && BackedAt(t, id) {
      assert ClosedAt(s, id) && OnceAt(s, id) && BackedAt(s, id);
    }
  }

  /** A zero balance adds nothing to the totals. */
  lemma {:induction false} OpenConserves(m: map<AccountId, Balance>, a: AccountId)
    requires a in m ==> m[a] == ZERO_BALANCE
    ensures PostedGap(m[a := ZERO_BALANCE]) == PostedGap(m) && PendingGap(m[a := ZERO_BALANCE]) == PendingGap(m)
  {
    SumMapUpdate(m, DebitsPostedColumn(), a, ZERO_BALANCE);
    SumMapUpdate(m, CreditsPostedColumn(), a, ZERO_BALANCE);
    SumMapUpdate(m, DebitsPendingColumn(), a, ZERO_BALANCE);
    SumMapUpdate(m, CreditsPendingColumn(), a, ZERO_BALANCE);
  }

  lemma {:induction false} OpenAllOpens(s: State, batch: seq<AccountSpec>)
    requires s.accounts.Keys == s.balances.Keys
    requires forall i :: 0 <= i < |batch| ==> batch[i].id !in s.accounts
    ensures Opened(s, OpenAll(s, batch), set i | 0 <= i < |batch| :: batch[i].id)
  {
    if batch != [] {
      var n := |batch| - 1;
      OpenAllOpens(s, batch[..n]);
      assert (set i | 0 <= i < |batch| :: batch[i].id) == (set i | 0 <= i < n :: batch[..n][i].id) + {batch[n].id} by {
        assert forall i :: 0 <= i < n ==> batch[i] == batch[..n][i];
      }
    }
  }

  lemma {:induction false} CreateKeeps(s: State, batch: seq<AccountSpec>)
    requires WellKept(s)
    requires forall i :: 0 <= i < |batch| ==> batch[i].id != NoAccount && batch[i].id !in s.accounts
    ensures WellKept(OpenAll(s, batch))
  {
    if batch != [] {
      var n := |batch| - 1;
      CreateKeeps(s, batch[..n]);
      OpenAllOpens(s, batch[..n]);
      OpenOne(OpenAll(s, batch[..n]), batch[n]);
    }
  }

  /** Balances after a double entry that the flags of both accounts admit stay within the caps. */
  lemma {:induction false} ShiftWithinCap(s: State, d: AccountId, c: AccountId, pending: int, posted: int)
    requires d in s.accounts && c in s.accounts && PostedWithinCap(s) && posted >= 0
    requires s.accounts[d].debitsCapped ==> BalanceOf(s, d).debitsPosted + posted <= BalanceOf(s, d).creditsPosted
    requires s.accounts[c].creditsCapped ==> BalanceOf(s, c).creditsPosted + posted <= BalanceOf(s, c).debitsPosted
    ensures PostedWithinCap(Shift(s, d, c, pending, posted))
  {
    forall a ensures CapAt(Shift(s, d, c, pending, posted), a) { assert CapAt(s, a); }
  }

  lemma {:induction false} SameCaps(s: State, t: State)
    requires PostedWithinCap(s) && t.accounts == s.accounts && t.balances == s.balances
    ensures PostedWithinCap(t)
  {
    forall a ensures CapAt(t, a) { assert CapAt(s, a); }
  }

  /** The entry a new record is logged with. */
  function EntryFor(name: TransferId, t: Transfer): Entry
  {
    if t.pending then Held(name, t.debit, t.credit, t.amount) else Moved(name, NoTransfer, t.debit, t.credit, t.amount)
  }

  /** `s` with a new record under `name` and its amount in the columns. */
  function Written(s: State, name: TransferId, t: Transfer): State
  {
    Record(Shift(s, t.debit, t.credit, if t.pending then t.amount else 0, if t.pending then 0 else t.amount),
           name, t, EntryFor(name, t))
  }

  lemma {:induction false} WrittenClosed(s: State, name: TransferId, t: Transfer)
    requires Closed(s) && name != NoTransfer && (name.Random? ==> name.n <= s.minted)
    requires t.debit in s.accounts && t.credit in s.accounts && t.amount > 0
    ensures Closed(Written(s, name, t))
  {
    var s' := Written(s, name, t);
    assert s'.accounts.Keys == s'.balances.Keys;
    forall id ensures ClosedAt(s', id) { assert ClosedAt(s, id); }
  }

  /** A new record keeps everything, when the flags admit its amount. */
  lemma {:induction false} WrittenKeeps(s: State, name: TransferId, t: Transfer)
    requires WellKept(s) && name != NoTransfer && name !in s.transfers && (name.Random? ==> name.n <= s.minted)
    requires t.debit in s.accounts && t.credit in s.accounts && t.amount > 0
    requires !t.pending ==> CheckBoth(s, t, 0, 0, t.amount).None?
    ensures WellKept(Written(s, name, t))
  {
    var s' := Written(s, name, t);
    var pending, posted := if t.pending then t.amount else 0, if t.pending then 0 else t.amount;
    assert CapAt(s, t.debit) && CapAt(s, t.credit) && OnceAt(s, name);
    WrittenClosed(s, name, t);
    ShiftWithinCap(s, t.debit, t.credit, pending, posted);
    SameCaps(Shift(s, t.debit, t.credit, pending, posted), s');
    HeldWrite(s.transfers, name, t);
    EnteredKeeps(s, s', t.debit, t.credit, pending, posted, EntryFor(name, t));
  }

  /** The name of a new record was never used. */
  lemma {:induction false} NameIsNew(s: State, id: TransferId)
    requires Closed(s) && !id.Random? && (id == NoTransfer || id !in s.transfers)
    ensures NameFor(s, id) != NoTransfer && NameFor(s, id) !in s.transfers
    ensures NameFor(s, id).Random? ==> NameFor(s, id).n <= s.minted
  {
    assert ClosedAt(s, NameFor(s, id));
  }

  lemma {:induction false} DirectKeeps(s: State, id: TransferId, t: Transfer)
    requires WellKept(s) && !id.Random?
    ensures WellKept(Direct(s, id, t).0)
  {
    hide WellKept;
    if Direct(s, id, t).0 != s {
      assert Direct(s, id, t).0 == Written(s, NameFor(s, id), t.(pending := false));
      NameIsNew(s, id) by { WellKeptClosed(s); }
      WrittenKeeps(s, NameFor(s, id), t.(pending := false));
    }
  }

  lemma {:induction false} WellKeptClosed(s: State)
    requires WellKept(s)
    ensures Closed(s)
  {
  }

  lemma {:induction false} HoldKeeps(s: State, id: TransferId, t: Transfer)
    requires WellKept(s) && !id.Random?
    ensures WellKept(Hold(s, id, t).0)
  {
    hide WellKept;
    if Hold(s, id, t).0 != s {
      assert Hold(s, id, t).0 == Written(s, NameFor(s, id), t.(pending := true));
      NameIsNew(s, id) by { WellKeptClosed(s); }
      WrittenKeeps(s, NameFor(s, id), t.(pending := true));
    }
  }

  lemma {:induction false} VoidKeeps(s: State, hold: TransferId)
    requires WellKept(s)
    ensures WellKept(Void(s, hold).0)
  {
    if hold in s.transfers && s.transfers[hold].pending {
      var s', pt := Void(s, hold).0, s.transfers[hold];
      assert OnceAt(s, hold) && ClosedAt(s, hold) && ClosedAt(s, Random(s.minted));
      VoidHeld(s, hold);
      VoidClosed(s, hold);
      ShiftWithinCap(s, pt.debit, pt.credit, 0 - pt.amount, 0) by { assert CapAt(s, pt.debit) && CapAt(s, pt.credit); }
      SameCaps(Shift(s, pt.debit, pt.credit, 0 - pt.amount, 0), s');
      EnteredKeeps(s, s', pt.debit, pt.credit, 0 - pt.amount, 0, Released(hold));
    }
  }

  lemma {:induction false} VoidClosed(s: State, hold: TransferId)
    requires Closed(s) && hold in s.transfers && s.transfers[hold].pending && OnceAt(s, hold)
    ensures var s' := Void(s, hold).0;
            Closed(s') && Recorded(s, s', Released(hold)) && forall id :: Stays(s, s', id)
  {
    var s' := Void(s, hold).0;
    assert ClosedAt(s, hold) && ClosedAt(s, Random(s.minted));
    assert s'.accounts.Keys == s'.balances.Keys;
    forall id ensures ClosedAt(s', id) && Stays(s, s', id) { assert ClosedAt(s, id); }
  }

  lemma {:induction false} VoidHeld(s: State, hold: TransferId)
    requires hold in s.transfers && s.transfers[hold].pending && Random(s.minted) !in s.transfers
    ensures HeldShift(s.transfers, Void(s, hold).0.transfers,
                      s.transfers[hold].debit, s.transfers[hold].credit, 0 - s.transfers[hold].amount)
  {
    var pt := s.transfers[hold];
    var m1 := s.transfers[hold := pt.(pending := false)];
    HeldWrite(s.transfers, hold, pt.(pending := false));
    HeldOverwrite(m1, Random(s.minted), pt.(code := CODE_VOID, pending := false));
    HeldThen(s.transfers, m1, Void(s, hold).0.transfers, pt.debit, pt.credit, 0 - pt.amount, pt.debit, pt.credit);
  }

  lemma {:induction false} PostKeeps(s: State, hold: TransferId, post: TransferId, amount: nat)
    requires WellKept(s) && Sensible(s, DoPost(hold, post, amount))
    ensures WellKept(Post(s, hold, post, amount).0)
  {
    hide WellKept;
    if hold in s.transfers && s.transfers[hold].pending && PostRefusal(s, hold, post, amount).None? {
      AcceptedPostKeeps(s, hold, post, amount);
    }
  }

  /** The hold is pending and the post of it is accepted. */
  predicate Accepts(s: State, hold: TransferId, post: TransferId, amount: nat)
  {
    hold in s.transfers && s.transfers[hold].pending && PostRefusal(s, hold, post, amount).None?
  }

  /** The amount a post moves. */
  function Posting(s: State, hold: TransferId, amount: nat): nat
    requires hold in s.transfers
  {
    if amount == 0 then s.transfers[hold].amount else amount
  }

  /** The entry an accepted post logs. */
  function PostEntry(s: State, hold: TransferId, post: TransferId, amount: nat): Entry
    requires hold in s.transfers
  {
    Moved(NameFor(s, post), hold, s.transfers[hold].debit, s.transfers[hold].credit, Posting(s, hold, amount))
  }

  lemma {:induction false} AcceptedPostKeeps(s: State, hold: TransferId, post: TransferId, amount: nat)
    requires WellKept(s) && Accepts(s, hold, post, amount) && !post.Random? && Harmless(s, hold, post)
    ensures WellKept(Post(s, hold, post, amount).0)
  {
    hide Post, Accepts;
    AcceptsPending(s, hold, post, amount);
    var pt, amt := s.transfers[hold], Posting(s, hold, amount);
    PostNamed(s, hold, post);
    PostHeld(s, hold, post, amount);
    PostClosed(s, hold, post, amount);
    PostWithinCap(s, hold, post, amount);
    PostRecords(s, hold, post, amount);
    EnteredKeeps(s, Post(s, hold, post, amount).0, pt.debit, pt.credit, 0 - pt.amount, amt, PostEntry(s, hold, post, amount));
  }

  /** Under the name of a harmless post nothing is pending but the hold itself, and nothing moved. */
  lemma {:induction false} PostNamed(s: State, hold: TransferId, post: TransferId)
    requires Closed(s) && OnceOnly(s) && hold in s.transfers && s.transfers[hold].pending && !post.Random? && Harmless(s, hold, post)
    ensures var name := NameFor(s, post);
            && name != NoTransfer && (name.Random? ==> name.n <= s.minted) && Moves(s.journal, name) == 0
            && (name == hold || PendingUnder(s.transfers, name) == 0)
            && hold != NoTransfer && Moves(s.journal, hold) == 0
            && s.transfers[hold].debit in s.accounts && s.transfers[hold].credit in s.accounts
            && (hold.Random? ==> hold.n < s.minted)
  {
    assert ClosedAt(s, hold) && OnceAt(s, hold);
    assert ClosedAt(s, NameFor(s, post)) && OnceAt(s, NameFor(s, post));
  }

  lemma {:induction false} PostWithinCap(s: State, hold: TransferId, post: TransferId, amount: nat)
    requires PostedWithinCap(s) && Accepts(s, hold, post, amount)
    ensures PostedWithinCap(Post(s, hold, post, amount).0)
  {
    var pt, amt := s.transfers[hold], Posting(s, hold, amount);
    assert CapAt(s, pt.debit) && CapAt(s, pt.credit);
    ShiftWithinCap(s, pt.debit, pt.credit, 0 - pt.amount, amt);
    SameCaps(Shift(s, pt.debit, pt.credit, 0 - pt.amount, amt), Post(s, hold, post, amount).0);
  }

  /** What an accepted post does to the records. */
  lemma {:induction false} PostRecords(s: State, hold: TransferId, post: TransferId, amount: nat)
    requires Accepts(s, hold, post, amount)
    ensures var s', name := Post(s, hold, post, amount).0, NameFor(s, post);
            && s'.transfers == PostedRecords(s.transfers, hold, name, Posting(s, hold, amount))
            && s'.accounts == s.accounts && s'.minted == s.minted + 1
            && s'.journal == Log(s.journal, PostEntry(s, hold, post, amount))
            && s'.balances == Shift(s, s.transfers[hold].debit, s.transfers[hold].credit, 0 - s.transfers[hold].amount,
                                    Posting(s, hold, amount)).balances
  {
    hide CheckBoth;
  }

  lemma {:induction false} PostClosed(s: State, hold: TransferId, post: TransferId, amount: nat)
    requires Closed(s) && OnceOnly(s) && Accepts(s, hold, post, amount) && !post.Random? && Harmless(s, hold, post)
    ensures var s' := Post(s, hold, post, amount).0;
            Closed(s') && Recorded(s, s', PostEntry(s, hold, post, amount)) && forall id :: Stays(s, s', id)
  {
    var s' := Post(s, hold, post, amount).0;
    PostNamed(s, hold, post);
    PostRecords(s, hold, post, amount);
    hide Post, PostRefusal, OnceOnly;
    assert s'.accounts.Keys == s'.balances.Keys;
    forall id ensures ClosedAt(s', id) && Stays(s, s', id) { assert ClosedAt(s, id); }
  }

  /** An accepted post takes exactly the consumed hold out of the pending sums, unless it overwrites another hold. */
  lemma {:induction false} PostHeld(s: State, hold: TransferId, post: TransferId, amount: nat)
    requires Accepts(s, hold, post, amount)
    requires NameFor(s, post) == hold || PendingUnder(s.transfers, NameFor(s, post)) == 0
    ensures HeldShift(s.transfers, Post(s, hold, post, amount).0.transfers,
                      s.transfers[hold].debit, s.transfers[hold].credit, 0 - s.transfers[hold].amount)
  {
    var pt := s.transfers[hold];
    var amt := if amount == 0 then pt.amount else amount;
    var name := NameFor(s, post);
    var used := pt.(pending := false, amount := if amt < pt.amount then 0 else pt.amount);
    var record := pt.(amount := amt, pending := false);
    var m1 := s.transfers[hold := used];
    HeldWrite(s.transfers, hold, used);
    HeldOverwrite(m1, name, record);
    HeldThen(s.transfers, m1, m1[name := record], pt.debit, pt.credit, 0 - pt.amount, pt.debit, pt.credit);
  }

  lemma {:induction false} HeldOverwrite(m: map<TransferId, Transfer>, id: TransferId, t: Transfer)
    requires PendingUnder(m, id) == 0 && !t.pending
    ensures HeldShift(m, m[id := t], t.debit, t.credit, 0)
  {
    var n := m[id := t];
    forall a ensures HeldStep(m, n, t.debit, t.credit, 0, a) {
      SumMapUpdate(m, HeldFrom(a), id, t);
      SumMapUpdate(m, HeldFor(a), id, t);
    }
  }

  /** A post that overwrites another pending hold loses that hold from the sums but not from the columns. */
  lemma {:induction false} PostLosesHold(s: State, hold: TransferId, post: TransferId, amount: nat)
    requires hold in s.transfers && s.transfers[hold].pending && PostRefusal(s, hold, post, amount).None?
    requires post != NoTransfer && post != hold && PendingUnder(s.transfers, post) > 0
    requires HeldMatches(s)
    ensures !HeldAt(Post(s, hold, post, amount).0, s.transfers[post].debit)
  {
    var pt := s.transfers[hold];
    var lost := s.transfers[post].debit;
    var amt := if amount == 0 then pt.amount else amount;
    var used := pt.(pending := false, amount := if amt < pt.amount then 0 else pt.amount);
    assert HeldAt(s, lost);
    SumMapUpdate(s.transfers, HeldFrom(lost), hold, used);
    SumMapUpdate(s.transfers[hold := used], HeldFrom(lost), post, pt.(amount := amt, pending := false));
  }

  /**
   The exact condition for PostPendingAs to keep the whole ledger right: the post id
   names no other pending hold, and no money moved under it before.
   */
  lemma {:induction false} PostKeepsIff(s: State, hold: TransferId, post: TransferId, amount: nat)
    requires WellKept(s) && !post.Random? && Accepts(s, hold, post, amount)
    ensures WellKept(Post(s, hold, post, amount).0) <==> Harmless(s, hold, post)
  {
    if Harmless(s, hold, post) {
      AcceptedPostKeeps(s, hold, post, amount);
    } else {
      assert ClosedAt(s, post);
      PostRecords(s, hold, post, amount);
      if s.transfers[post].pending {
        PostKeepsColumnsIff(s, hold, post, amount);
      } else {
        assert !OnceAt(Post(s, hold, post, amount).0, post);
      }
    }
  }

  /**
   The exact condition for PostPendingAs to keep the pending columns right: the
   chosen post id must not name another hold that is still pending.
   */
  lemma {:induction false} PostKeepsColumnsIff(s: State, hold: TransferId, post: TransferId, amount: nat)
    requires WellKept(s) && !post.Random?
    requires hold in s.transfers && s.transfers[hold].pending && PostRefusal(s, hold, post, amount).None?
    ensures HeldMatches(Post(s, hold, post, amount).0)
       <==> (post == hold || post !in s.transfers || !s.transfers[post].pending)
  {
    if post != hold && post in s.transfers && s.transfers[post].pending {
      PendingPositive(s, post);
      PostLosesHold(s, hold, post, amount);
    } else {
      PostKeepsColumns(s, hold, post, amount);
    }
  }

  lemma {:induction false} PendingPositive(s: State, id: TransferId)
    requires WellKept(s) && id in s.transfers && s.transfers[id].pending
    ensures s.transfers[id].amount > 0 && id != NoTransfer
  {
    assert ClosedAt(s, id);
  }

  lemma {:induction false} PostKeepsColumns(s: State, hold: TransferId, post: TransferId, amount: nat)
    requires WellKept(s) && !post.Random?
    requires hold in s.transfers && s.transfers[hold].pending && PostRefusal(s, hold, post, amount).None?
    requires post == hold || post !in s.transfers || !s.transfers[post].pending
    ensures HeldMatches(Post(s, hold, post, amount).0)
  {
    var pt := s.transfers[hold];
    var amt, e := Posting(s, hold, amount), PostEntry(s, hold, post, amount);
    var s' := Post(s, hold, post, amount).0;
    assert ClosedAt(s, hold) && ClosedAt(s, NameFor(s, post));
    PostRecords(s, hold, post, amount);
    assert Entered(s, s', pt.debit, pt.credit, 0 - pt.amount, amt, e);
    PostHeld(s, hold, post, amount);
    EnteredHeld(s, s', pt.debit, pt.credit, 0 - pt.amount, amt, e);
  }

  lemma {:induction false} StepKeeps(s: State, op: Op)
    requires WellKept(s) && Sensible(s, op)
    ensures WellKept(Step(s, op))
  {
    hide WellKept;
    match op
    case DoCreate(batch) => if RefusedBy(s.accounts, batch).None? { CreateKeeps(s, batch); }
    case DoDirect(id, t) => DirectKeeps(s, id, t);
    case DoHold(id, t) => HoldKeeps(s, id, t);
    case DoPost(hold, post, amount) => PostKeeps(s, hold, post, amount);
    case DoVoid(hold) => VoidKeeps(s, hold);
  }

  // ---------------------------------------------------------------- whole runs

  lemma {:induction false} DisciplinedIsSensible(s: State, ops: seq<Op>)
    requires DisciplinedRun(s, ops)
    ensures SensibleRun(s, ops)
  {
    if ops != [] { DisciplinedIsSensible(s, ops[..|ops| - 1]); }
  }

  lemma {:induction false} RunKeeps(s: State, ops: seq<Op>)
    requires WellKept(s) && SensibleRun(s, ops)
    ensures WellKept(Run(s, ops))
  {
    hide WellKept;
    if ops != [] {
      RunKeeps(s, ops[..|ops| - 1]);
      StepKeeps(Run(s, ops[..|ops| - 1]), ops[|ops| - 1]);
    }
  }

  lemma {:induction false} InitialWellKept()
    ensures WellKept(INITIAL)
  {
  }

  lemma {:induction false} SumMapNonNegative<K(!new), V(!new)>(m: map<K, V>, f: (K, V) -> int)
    requires forall k, v :: f(k, v) >= 0
    ensures SumMap(m, f) >= 0
    decreases m
  {
    if m != map[] {
      var k :| k in m;
      SumMapPick(m, f, k);
      SumMapNonNegative(m - {k}, f);
    }
  }

  /** The subtractions of PostPendingAs and VoidPending never underflow: a hold is covered by both columns. */
  lemma {:induction false} PendingNeverUnderflows(s: State, hold: TransferId)
    requires WellKept(s) && hold in s.transfers && s.transfers[hold].pending
    ensures var t := s.transfers[hold];
            && t.amount <= BalanceOf(s, t.debit).debitsPending
            && t.amount <= BalanceOf(s, t.credit).creditsPending
  {
    var t := s.transfers[hold];
    assert HeldAt(s, t.debit) && HeldAt(s, t.credit);
    SumMapPick(s.transfers, HeldFrom(t.debit), hold);
    SumMapNonNegative(s.transfers - {hold}, HeldFrom(t.debit));
    SumMapPick(s.transfers, HeldFor(t.credit), hold);
    SumMapNonNegative(s.transfers - {hold}, HeldFor(t.credit));
  }

  /** Under an id without a record nothing has moved. */
  lemma {:induction false} NothingMoved(s: State, id: TransferId)
    requires WellKept(s) && id !in s.transfers && id != NoTransfer
    ensures Moves(s.journal, id) == 0 && AmountMoved(s.journal, id) == 0
  {
    assert OnceAt(s, id);
    NoMovesNoAmount(s.journal, id);
  }

  lemma {:induction false} NoMovesNoAmount(j: Journal, id: TransferId)
    requires Moves(j, id) == 0
    ensures AmountMoved(j, id) == 0
  {
    if j.Log? { NoMovesNoAmount(j.past, id); }
  }

  // ---------------------------------------------------------------- frames

  /** The transfer ids an operation names. */
  predicate Names(op: Op, id: TransferId)
  {
    match op
    case DoCreate(_) => false
    case DoDirect(x, _) => x == id
    case DoHold(x, _) => x == id
    case DoPost(hold, post, _) => hold == id || post == id
    case DoVoid(hold) => hold == id
  }

  /** Everything recorded about one id is the same in both states. */
  ghost predicate SameRecord(s: State, t: State, id: TransferId)
  {
    && (id in s.transfers <==> id in t.transfers)
    && (id in s.transfers ==> t.transfers[id] == s.transfers[id])
    && Moves(t.journal, id) == Moves(s.journal, id)
    && AmountMoved(t.journal, id) == AmountMoved(s.journal, id)
  }

  /** An entry that moves nothing under `id` leaves its counts. */
  lemma {:induction false} LogOther(j: Journal, e: Entry, id: TransferId)
    requires e.Moved? ==> e.id != id
    ensures Moves(Log(j, e), id) == Moves(j, id) && AmountMoved(Log(j, e), id) == AmountMoved(j, id)
  {
  }

  lemma {:induction false} DirectRecord(s: State, x: TransferId, t: Transfer, id: TransferId)
    requires id != x && !id.Random?
    ensures SameRecord(s, Direct(s, x, t).0, id)
  {
    hide Moves, AmountMoved, Pair, CheckBoth;
    LogOther(s.journal, Moved(NameFor(s, x), NoTransfer, t.debit, t.credit, t.amount), id);
  }

  lemma {:induction false} HoldRecord(s: State, x: TransferId, t: Transfer, id: TransferId)
    requires id != x && !id.Random?
    ensures SameRecord(s, Hold(s, x, t).0, id)
  {
    hide Moves, AmountMoved, Pair, CheckBoth;
    LogOther(s.journal, Held(NameFor(s, x), t.debit, t.credit, t.amount), id);
  }

  lemma {:induction false} PostRecord(s: State, hold: TransferId, post: TransferId, amount: nat, id: TransferId)
    requires id != hold && id != post && !id.Random?
    ensures SameRecord(s, Post(s, hold, post, amount).0, id)
  {
    hide Moves, AmountMoved, Post, Accepts;
    if Accepts(s, hold, post, amount) {
      PostRecords(s, hold, post, amount);
      assert hold in s.transfers by { AcceptsPending(s, hold, post, amount); }
      LogOther(s.journal, PostEntry(s, hold, post, amount), id);
    } else {
      PostIdle(s, hold, post, amount);
    }
  }

  lemma {:induction false} AcceptsPending(s: State, hold: TransferId, post: TransferId, amount: nat)
    requires Accepts(s, hold, post, amount)
    ensures hold in s.transfers && s.transfers[hold].pending
  {
  }

  /** A post that is refused, or replayed, changes nothing. */
  lemma {:induction false} PostIdle(s: State, hold: TransferId, post: TransferId, amount: nat)
    requires !Accepts(s, hold, post, amount)
    ensures Post(s, hold, post, amount).0 == s
  {
    hide CheckBoth;
  }

  lemma {:induction false} VoidRecord(s: State, hold: TransferId, id: TransferId)
    requires id != hold && !id.Random?
    ensures SameRecord(s, Void(s, hold).0, id)
  {
    hide Moves, AmountMoved;
    LogOther(s.journal, Released(hold), id);
  }

  lemma {:induction false} StepRecord(s: State, op: Op, id: TransferId)
    requires !Names(op, id) && !id.Random? && id != NoTransfer
    ensures SameRecord(s, Step(s, op), id)
  {
    hide Moves, AmountMoved, Direct, Hold, Post, Void;
    match op
    case DoCreate(batch) => OpenAllRecords(s, batch);
    case DoDirect(x, t) => DirectRecord(s, x, t, id);
    case DoHold(x, t) => HoldRecord(s, x, t, id);
    case DoPost(hold, post, amount) => PostRecord(s, hold, post, amount, id);
    case DoVoid(hold) => VoidRecord(s, hold, id);
  }

  /** Every operation logs at most one entry. */
  lemma {:induction false} StepLogs(s: State, op: Op)
    ensures Step(s, op).journal == s.journal || (Step(s, op).journal.Log? && Step(s, op).journal.past == s.journal)
  {
    if op.DoCreate? { OpenAllRecords(s, op.batch); }
  }

  /** An operation that does not name an id leaves its record and its journal counts; the journal only grows. */
  lemma {:induction false} StepFrame(s: State, op: Op, id: TransferId)
    requires !Names(op, id) && !id.Random? && id != NoTransfer
    ensures SameRecord(s, Step(s, op), id)
    ensures forall e :: Logged(s.journal, e) ==> Logged(Step(s, op).journal, e)
  {
    StepRecord(s, op, id);
    StepLogs(s, op);
  }

  lemma {:induction false} OpenAllRecords(s: State, batch: seq<AccountSpec>)
    ensures OpenAll(s, batch).transfers == s.transfers && OpenAll(s, batch).journal == s.journal
  {
    if batch != [] { OpenAllRecords(s, batch[..|batch| - 1]); }
  }

  /** The operation posts a pending hold under this id. */
  predicate Overwrites(s: State, op: Op, id: TransferId)
  {
    op.DoPost? && op.post == id && op.hold in s.transfers && s.transfers[op.hold].pending
  }

  /** A record that is no longer pending changes only when a hold is posted under its id. */
  lemma {:induction false} StepFrozen(s: State, op: Op, id: TransferId)
    requires WellKept(s) && Sensible(s, op) && id in s.transfers && !s.transfers[id].pending && !Overwrites(s, op, id)
    ensures id in Step(s, op).transfers && Step(s, op).transfers[id] == s.transfers[id]
  {
    assert ClosedAt(s, Random(s.minted)) && ClosedAt(s, NoTransfer);
    hide WellKept, ClosedAt, Pair, CheckBoth;
    match op
    case DoCreate(batch) => OpenAllRecords(s, batch);
    case DoDirect(x, t) =>
    case DoHold(x, t) =>
    case DoPost(hold, post, amount) => PostFrozen(s, hold, post, amount, id);
    case DoVoid(hold) =>
  }

  lemma {:induction false} PostFrozen(s: State, hold: TransferId, post: TransferId, amount: nat, id: TransferId)
    requires !Overwrites(s, DoPost(hold, post, amount), id) && id in s.transfers && !s.transfers[id].pending
    requires Random(s.minted) !in s.transfers && !post.Random?
    ensures id in Post(s, hold, post, amount).0.transfers && Post(s, hold, post, amount).0.transfers[id] == s.transfers[id]
  {
    if Accepts(s, hold, post, amount) {
      PostRecords(s, hold, post, amount);
    } else {
      PostIdle(s, hold, post, amount);
    }
  }

  /** No operation of the run posts a pending hold under this id. */
  ghost predicate Unwritten(s: State, ops: seq<Op>, id: TransferId)
  {
    ops == [] || (Unwritten(s, ops[..|ops| - 1], id) && !Overwrites(Run(s, ops[..|ops| - 1]), ops[|ops| - 1], id))
  }

  lemma {:induction false} RunFrozen(s: State, ops: seq<Op>, id: TransferId)
    requires WellKept(s) && SensibleRun(s, ops) && Unwritten(s, ops, id) && id in s.transfers && !s.transfers[id].pending
    ensures id in Run(s, ops).transfers && Run(s, ops).transfers[id] == s.transfers[id]
  {
    if ops != [] {
      var before := ops[..|ops| - 1];
      RunKeeps(s, before);
      RunFrozen(s, before, id);
      StepFrozen(Run(s, before), ops[|ops| - 1], id);
    }
  }

  /** A run that posts only under unused ids writes no post under a settled record. */
  lemma {:induction false} DisciplinedUnwritten(s: State, ops: seq<Op>, id: TransferId)
    requires WellKept(s) && DisciplinedRun(s, ops) && id in s.transfers && !s.transfers[id].pending
    ensures Unwritten(s, ops, id)
  {
    if ops != [] {
      var before := ops[..|ops| - 1];
      DisciplinedIsSensible(s, before);
      DisciplinedUnwritten(s, before, id);
      RunFrozen(s, before, id);
    }
  }

  /**
   Crash-safe retries: once a post was accepted under a chosen id, repeating the
   same call after any further run that writes no other post under the ids of hold
   and post answers the same id and changes nothing.
   */
  lemma {:induction false} PostRetryReplays(s: State, hold: TransferId, post: TransferId, amount: nat, later: seq<Op>)
    requires WellKept(s) && Sensible(s, DoPost(hold, post, amount)) && post != NoTransfer
    requires Post(s, hold, post, amount).1.Ok?
    requires var s1 := Post(s, hold, post, amount).0;
             SensibleRun(s1, later) && Unwritten(s1, later, hold) && Unwritten(s1, later, post)
    ensures var s' := Run(Post(s, hold, post, amount).0, later);
            Post(s', hold, post, amount) == (s', Ok(post))
  {
    var s1 := Post(s, hold, post, amount).0;
    PostKeeps(s, hold, post, amount);
    assert hold in s1.transfers && post in s1.transfers;
    assert !s1.transfers[hold].pending && !s1.transfers[post].pending;
    RunFrozen(s1, later, hold);
    RunFrozen(s1, later, post);
  }

  // ---------------------------------------------------------------- overdraft

  /** Posted and pending debits together stay within posted credits. */
  ghost predicate HeldWithinCap(s: State, a: AccountId)
  {
    a in s.accounts && s.accounts[a].debitsCapped ==>
      BalanceOf(s, a).debitsPosted + BalanceOf(s, a).debitsPending <= BalanceOf(s, a).creditsPosted
  }

  predicate DebitsDirectly(op: Op, a: AccountId)
  {
    op.DoDirect? && op.t.debit == a
  }

  lemma {:induction false} PostKeepsCap(s: State, hold: TransferId, post: TransferId, amount: nat, a: AccountId)
    requires HeldWithinCap(s, a)
    ensures HeldWithinCap(Post(s, hold, post, amount).0, a)
  {
    hide CheckBoth;
  }

  /** A hold counts what is pending against both caps. */
  lemma {:induction false} HoldKeepsCap(s: State, id: TransferId, t: Transfer, a: AccountId)
    ensures HeldWithinCap(s, a) ==> HeldWithinCap(Hold(s, id, t).0, a)
    ensures CreditsWithinCap(s, a) ==> CreditsWithinCap(Hold(s, id, t).0, a)
  {
    hide Pair;
  }

  lemma {:induction false} StepKeepsCap(s: State, op: Op, a: AccountId)
    requires WellKept(s) && HeldWithinCap(s, a) && !DebitsDirectly(op, a)
    ensures HeldWithinCap(Step(s, op), a)
  {
    hide WellKept, Pair, CheckBoth, Hold;
    match op
    case DoCreate(batch) =>
      if RefusedBy(s.accounts, batch).None? {
        WellKeptClosed(s);
        OpenAllOpens(s, batch);
        assert BalanceOf(Step(s, op), a) == BalanceOf(s, a);
      }
    case DoDirect(id, t) =>
    case DoHold(id, t) => HoldKeepsCap(s, id, t, a);
    case DoPost(hold, post, amount) => PostKeepsCap(s, hold, post, amount, a);
    case DoVoid(hold) =>
  }

  /** On a capped account debited only through holds, debits posted plus pending never exceed credits posted. */
  lemma {:induction false} RunKeepsCap(s: State, ops: seq<Op>, a: AccountId)
    requires WellKept(s) && SensibleRun(s, ops) && HeldWithinCap(s, a)
    requires forall i :: 0 <= i < |ops| ==> !DebitsDirectly(ops[i], a)
    ensures HeldWithinCap(Run(s, ops), a)
  {
    if ops != [] {
      var n := |ops| - 1;
      assert forall i :: 0 <= i < n ==> ops[..n][i] == ops[i];
      RunKeeps(s, ops[..n]);
      RunKeepsCap(s, ops[..n], a);
      StepKeepsCap(Run(s, ops[..n]), ops[n], a);
    }
  }

  /** The dual: posted and pending credits together stay within posted debits. */
  ghost predicate CreditsWithinCap(s: State, a: AccountId)
  {
    a in s.accounts && s.accounts[a].creditsCapped ==>
      BalanceOf(s, a).creditsPosted + BalanceOf(s, a).creditsPending <= BalanceOf(s, a).debitsPosted
  }

  predicate CreditsDirectly(op: Op, a: AccountId)
  {
    op.DoDirect? && op.t.credit == a
  }

  lemma {:induction false} PostKeepsCreditCap(s: State, hold: TransferId, post: TransferId, amount: nat, a: AccountId)
    requires CreditsWithinCap(s, a)
    ensures CreditsWithinCap(Post(s, hold, post, amount).0, a)
  {
    hide CheckBoth;
  }

  lemma {:induction false} StepKeepsCreditCap(s: State, op: Op, a: AccountId)
    requires WellKept(s) && CreditsWithinCap(s, a) && !CreditsDirectly(op, a)
    ensures CreditsWithinCap(Step(s, op), a)
  {
    hide WellKept, Pair, CheckBoth, Hold;
    match op
    case DoCreate(batch) =>
      if RefusedBy(s.accounts, batch).None? {
        WellKeptClosed(s);
        OpenAllOpens(s, batch);
        assert BalanceOf(Step(s, op), a) == BalanceOf(s, a);
      }
    case DoDirect(id, t) =>
    case DoHold(id, t) => HoldKeepsCap(s, id, t, a);
    case DoPost(hold, post, amount) => PostKeepsCreditCap(s, hold, post, amount, a);
    case DoVoid(hold) =>
  }

  /** On an account with capped credits that is credited only through holds, credits posted plus pending never exceed debits posted. */
  lemma {:induction false} RunKeepsCreditCap(s: State, ops: seq<Op>, a: AccountId)
    requires WellKept(s) && SensibleRun(s, ops) && CreditsWithinCap(s, a)
    requires forall i :: 0 <= i < |ops| ==> !CreditsDirectly(ops[i], a)
    ensures CreditsWithinCap(Run(s, ops), a)
  {
    if ops != [] {
      var n := |ops| - 1;
      assert forall i :: 0 <= i < n ==> ops[..n][i] == ops[i];
      RunKeeps(s, ops[..n]);
      RunKeepsCreditCap(s, ops[..n], a);
      StepKeepsCreditCap(Run(s, ops[..n]), ops[n], a);
    }
  }

  /** An accepted hold between accounts that keep these bounds can always be posted in full, whatever their flags. */
  lemma {:induction false} HoldCanPost(s: State, hold: TransferId, post: TransferId)
    requires WellKept(s) && hold in s.transfers && s.transfers[hold].pending
    requires HeldWithinCap(s, s.transfers[hold].debit) && CreditsWithinCap(s, s.transfers[hold].credit)
    ensures PostRefusal(s, hold, post, s.transfers[hold].amount).None?
  {
    assert ClosedAt(s, hold) && CapAt(s, s.transfers[hold].debit) && CapAt(s, s.transfers[hold].credit);
    PendingNeverUnderflows(s, hold);
  }

  /**
   An immediate transfer looks only at posted debits: it keeps the strong bound
   exactly when the pending debits also fit.
   */
  lemma {:induction false} DirectKeepsCapIff(s: State, id: TransferId, t: Transfer)
    requires WellKept(s) && t.debit in s.accounts && s.accounts[t.debit].debitsCapped && t.debit != t.credit
    requires Direct(s, id, t).0 != s
    ensures HeldWithinCap(Direct(s, id, t).0, t.debit)
       <==> BalanceOf(s, t.debit).debitsPosted + BalanceOf(s, t.debit).debitsPending + t.amount
              <= BalanceOf(s, t.debit).creditsPosted
  {
  }

  lemma {:induction false} RunThen(s: State, ops: seq<Op>, op: Op)
    requires DisciplinedRun(s, ops) && Disciplined(Run(s, ops), op)
    ensures DisciplinedRun(s, ops + [op]) && Run(s, ops + [op]) == Step(Run(s, ops), op)
  {
    assert (ops + [op])[..|ops|] == ops;
  }

  lemma {:induction false} OpenSingle(s: State, a: AccountId, account: Account)
    requires a != NoAccount && a !in s.accounts
    ensures Step(s, DoCreate([AccountSpec(a, account)]))
         == s.(accounts := s.accounts[a := account], balances := s.balances[a := ZERO_BALANCE])
  {
    var batch := [AccountSpec(a, account)];
    assert batch[..0] == [] && |batch| - 1 == 0 && batch[0] == AccountSpec(a, account);
    assert RefusedBy(s.accounts, batch).None?;
    assert OpenAll(s, batch[..0]) == s;
  }

  const PLAIN := Account(100, false, false)
  const CAPPED := Account(100, true, false)

  /** A capped agent account and its uncapped treasury, just opened. */
  const OPENED := State(map[FloatTreasury := PLAIN, AgentFloat("") := CAPPED],
                        map[FloatTreasury := ZERO_BALANCE, AgentFloat("") := ZERO_BALANCE], map[], 0, Empty)

  lemma {:induction false} OpenedReachable()
    ensures var ops := [DoCreate([AccountSpec(FloatTreasury, PLAIN)])] + [DoCreate([AccountSpec(AgentFloat(""), CAPPED)])];
            DisciplinedRun(INITIAL, ops) && Run(INITIAL, ops) == OPENED
  {
    var op0, op1 := DoCreate([AccountSpec(FloatTreasury, PLAIN)]), DoCreate([AccountSpec(AgentFloat(""), CAPPED)]);
    OpenSingle(INITIAL, FloatTreasury, PLAIN);
    assert [] + [op0] == [op0];
    RunThen(INITIAL, [], op0);
    OpenSingle(Step(INITIAL, op0), AgentFloat(""), CAPPED);
    RunThen(INITIAL, [op0], op1);
  }

  const FUND := Transfer(FloatTreasury, AgentFloat(""), 100, CODE_TOPUP, 10, false)
  const RESERVE := Transfer(AgentFloat(""), FloatTreasury, 100, CODE_HOLD, 10, true)
  const SPEND := Transfer(AgentFloat(""), FloatTreasury, 100, CODE_SETTLE, 10, false)

  /** Ten credited, ten held. */
  lemma {:induction false} FundedAndHeld()
    ensures var s := Step(Step(OPENED, DoDirect(FloatPost(Topup, ""), FUND)), DoHold(FloatPending(Debit, ""), RESERVE));
            && s.accounts == OPENED.accounts && FloatPost(Debit, "") !in s.transfers && FloatPending(Topup, "") !in s.transfers
            && FloatPending(Debit, "") in s.transfers && s.transfers[FloatPending(Debit, "")] == RESERVE
            && BalanceOf(s, AgentFloat("")) == Balance(0, 10, 10, 0)
  {
    hide Direct;
    FundedOnce();
  }

  lemma {:induction false} FundedOnce()
    ensures var s := Step(OPENED, DoDirect(FloatPost(Topup, ""), FUND));
            && s.accounts == OPENED.accounts && s.transfers == map[FloatPost(Topup, "") := FUND]
            && BalanceOf(s, AgentFloat("")) == Balance(0, 10, 0, 0) && BalanceOf(s, FloatTreasury) == Balance(10, 0, 0, 0)
  {
  }

  /** Ten credited, ten held, ten transferred: the immediate transfer is accepted and the bound is lost. */
  lemma {:induction false} DirectIgnoresHolds() returns (ops: seq<Op>)
    ensures DisciplinedRun(INITIAL, ops) && !HeldWithinCap(Run(INITIAL, ops), AgentFloat(""))
  {
    var opening := [DoCreate([AccountSpec(FloatTreasury, PLAIN)])] + [DoCreate([AccountSpec(AgentFloat(""), CAPPED)])];
    var op2, op3 := DoDirect(FloatPost(Topup, ""), FUND), DoHold(FloatPending(Debit, ""), RESERVE);
    var op4 := DoDirect(FloatPost(Debit, ""), SPEND);
    OpenedReachable();
    FundedAndHeld();
    RunThen(INITIAL, opening, op2);
    RunThen(INITIAL, opening + [op2], op3);
    RunThen(INITIAL, opening + [op2] + [op3], op4);
    ops := opening + [op2] + [op3] + [op4];
    SpendBreaksCap(Step(Step(OPENED, op2), op3));
  }

  const OTHER_HOLD := FloatPending(Topup, "")

  /** The ledger with ten funded, ten held from the agent and ten more held from the treasury. */
  const TWO_HOLDS := Step(Step(Step(OPENED, DoDirect(FloatPost(Topup, ""), FUND)), DoHold(FloatPending(Debit, ""), RESERVE)),
                          DoHold(OTHER_HOLD, FUND.(pending := true)))

  lemma {:induction false} TwoHoldsReachable() returns (ops: seq<Op>)
    ensures DisciplinedRun(INITIAL, ops) && Run(INITIAL, ops) == TWO_HOLDS && WellKept(TWO_HOLDS)
  {
    hide Direct, Hold, WellKept;
    var opening := [DoCreate([AccountSpec(FloatTreasury, PLAIN)])] + [DoCreate([AccountSpec(AgentFloat(""), CAPPED)])];
    var op2, op3 := DoDirect(FloatPost(Topup, ""), FUND), DoHold(FloatPending(Debit, ""), RESERVE);
    var op4 := DoHold(OTHER_HOLD, FUND.(pending := true));
    OpenedReachable();
    RunThen(INITIAL, opening, op2);
    RunThen(INITIAL, opening + [op2], op3);
    RunThen(INITIAL, opening + [op2] + [op3], op4);
    ops := opening + [op2] + [op3] + [op4];
    DisciplinedIsSensible(INITIAL, ops);
    InitialWellKept();
    RunKeeps(INITIAL, ops);
  }

  /** Two holds, the first posted under the id of the second: the post is accepted and the second hold's column is wrong. */
  lemma {:induction false} PostOverHold() returns (ops: seq<Op>, post: Op)
    ensures DisciplinedRun(INITIAL, ops) && post.DoPost?
    ensures Post(Run(INITIAL, ops), post.hold, post.post, post.amount).1.Ok?
    ensures !HeldAt(Step(Run(INITIAL, ops), post), FloatTreasury)
  {
    hide Direct, Hold, PostRefusal, HeldAt, HeldMatches;
    ops := TwoHoldsReachable();
    FundedAndHeld();
    SecondHold(Step(Step(OPENED, DoDirect(FloatPost(Topup, ""), FUND)), DoHold(FloatPending(Debit, ""), RESERVE)));
    post := DoPost(FloatPending(Debit, ""), OTHER_HOLD, 10);
    PostLosesHold(TWO_HOLDS, FloatPending(Debit, ""), OTHER_HOLD, 10);
  }

  lemma {:induction false} SecondHold(s: State)
    requires s.accounts == OPENED.accounts && OTHER_HOLD !in s.transfers
    requires BalanceOf(s, AgentFloat("")) == Balance(0, 10, 10, 0)
    requires FloatPending(Debit, "") in s.transfers && s.transfers[FloatPending(Debit, "")] == RESERVE
    ensures var t := Step(s, DoHold(OTHER_HOLD, FUND.(pending := true)));
            && OTHER_HOLD in t.transfers && t.transfers[OTHER_HOLD] == FUND.(pending := true)
            && FloatPending(Debit, "") in t.transfers && t.transfers[FloatPending(Debit, "")] == RESERVE
            && PostRefusal(t, FloatPending(Debit, ""), OTHER_HOLD, 10).None?
  {
    var t := Step(s, DoHold(OTHER_HOLD, FUND.(pending := true)));
    assert BalanceOf(t, AgentFloat("")) == Balance(0, 10, 10, 10);
  }

  lemma {:induction false} SpendBreaksCap(s: State)
    requires s.accounts == OPENED.accounts && FloatPost(Debit, "") !in s.transfers
    requires BalanceOf(s, AgentFloat("")) == Balance(0, 10, 10, 0)
    ensures !HeldWithinCap(Step(s, DoDirect(FloatPost(Debit, ""), SPEND)), AgentFloat(""))
  {
  }
}
