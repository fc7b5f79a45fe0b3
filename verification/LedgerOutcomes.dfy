/**
 What each ledger call answers and does, said in terms of its arguments: when it is accepted,
 which record and journal entry it leaves, and how every column of every account changes.
 */
module LedgerOutcomes {
  import opened Prelude
  import opened Ids
  import opened Ledger

  // ---------------------------------------------------------------- when a movement is allowed

  /** A positive amount between two open accounts of one ledger. */
  predicate Between(s: State, t: Transfer)
  {
    && t.amount > 0 && t.debit in s.accounts && t.credit in s.accounts
    && s.accounts[t.debit].ledger == s.accounts[t.credit].ledger
  }

  /** Moving `posted` now, with `held` and `awaited` still pending, leaves both accounts within their flags. */
  predicate Within(s: State, debit: AccountId, credit: AccountId, held: int, awaited: int, posted: int)
    requires debit in s.accounts && credit in s.accounts
  {
    var d, c := BalanceOf(s, debit), BalanceOf(s, credit);
    && (s.accounts[debit].debitsCapped ==> d.debitsPosted + posted + held <= d.creditsPosted)
    && (s.accounts[debit].creditsCapped ==> d.creditsPosted <= d.debitsPosted + posted)
    && (s.accounts[credit].debitsCapped ==> c.debitsPosted <= c.creditsPosted + posted)
    && (s.accounts[credit].creditsCapped ==> c.creditsPosted + posted + awaited <= c.debitsPosted)
  }

  predicate Unnamed(s: State, id: TransferId)
  {
    id == NoTransfer || id !in s.transfers
  }

  /** The name a record gets: the caller's, or a random one. */
  predicate NamedAs(s: State, id: TransferId, name: TransferId)
  {
    if id == NoTransfer then name == Random(s.minted) else name == id
  }

  /** Every column of `a` after a movement that changes the pending and posted columns of its two accounts. */
  predicate MovesColumns(s: State, v: State, debit: AccountId, credit: AccountId, pending: int, posted: int, a: AccountId)
  {
    var b, c := BalanceOf(s, a), BalanceOf(v, a);
    && c.debitsPosted == b.debitsPosted + (if a == debit then posted else 0)
    && c.creditsPosted == b.creditsPosted + (if a == credit then posted else 0)
    && c.debitsPending == b.debitsPending + (if a == debit then pending else 0)
    && c.creditsPending == b.creditsPending + (if a == credit then pending else 0)
  }

  ghost predicate Columns(s: State, v: State, debit: AccountId, credit: AccountId, pending: int, posted: int)
  {
    forall a :: MovesColumns(s, v, debit, credit, pending, posted, a)
  }

  lemma {:induction false} ShiftColumns(s: State, debit: AccountId, credit: AccountId, pending: int, posted: int)
    ensures Columns(s, Shift(s, debit, credit, pending, posted), debit, credit, pending, posted)
  {
  }

  lemma {:induction false} SameColumns(s: State, u: State, v: State, debit: AccountId, credit: AccountId, pending: int, posted: int)
    requires Columns(s, u, debit, credit, pending, posted) && v.balances == u.balances
    ensures Columns(s, v, debit, credit, pending, posted)
  {
    forall a ensures MovesColumns(s, v, debit, credit, pending, posted, a) {
      assert MovesColumns(s, u, debit, credit, pending, posted, a);
    }
  }

  /** A flag check passes exactly when both accounts stay within their flags. */
  lemma {:induction false} CheckedWithin(s: State, t: Transfer, held: int, awaited: int, posted: int)
    requires t.debit in s.accounts && t.credit in s.accounts
    ensures CheckBoth(s, t, held, awaited, posted).None? <==> Within(s, t.debit, t.credit, held, awaited, posted)
    ensures CheckBoth(s, t, held, awaited, posted).Some? ==>
              CheckBoth(s, t, held, awaited, posted).value in {ExceedsCredits, ExceedsDebits}
  {
  }

  /** The refusals that come before any flag is checked. */
  predicate Misfit(s: State, t: Transfer, e: Error)
  {
    match e
    case AmountZero => t.amount == 0
    case AccountNotFound => t.amount > 0 && (t.debit !in s.accounts || t.credit !in s.accounts)
    case LedgerMismatch =>
      t.amount > 0 && t.debit in s.accounts && t.credit in s.accounts && s.accounts[t.debit].ledger != s.accounts[t.credit].ledger
    case _ => false
  }

  // ---------------------------------------------------------------- the calls

  /** An immediate transfer. */
  lemma {:induction false} DirectOutcome(s: State, id: TransferId, t: Transfer)
    ensures var (v, r) := Direct(s, id, t);
            if !Between(s, t) then v == s && r.Err? && Misfit(s, t, r.error)
            else if !Unnamed(s, id) then
              v == s && r == if s.transfers[id] == t.(pending := false) then Ok(id) else Err(TransferIdConflict)
            else if !Within(s, t.debit, t.credit, 0, 0, t.amount) then v == s && r.Err? && r.error in {ExceedsCredits, ExceedsDebits}
            else
              && r.Ok? && NamedAs(s, id, r.id) && Columns(s, v, t.debit, t.credit, 0, t.amount)
              && v == State(s.accounts, v.balances, s.transfers[r.id := t.(pending := false)], s.minted + 1,
                            Log(s.journal, Moved(r.id, NoTransfer, t.debit, t.credit, t.amount)))
  {
    hide Shift, CheckBoth;
    if Between(s, t) {
      CheckedWithin(s, t, 0, 0, t.amount);
      var u, v := Shift(s, t.debit, t.credit, 0, t.amount), Direct(s, id, t).0;
      ShiftFrame(s, t.debit, t.credit, 0, t.amount);
      if v.balances == u.balances { SameColumns(s, u, v, t.debit, t.credit, 0, t.amount); }
    }
  }

  lemma {:induction false} ShiftFrame(s: State, debit: AccountId, credit: AccountId, pending: int, posted: int)
    ensures var v := Shift(s, debit, credit, pending, posted);
            v == s.(balances := v.balances) && Columns(s, v, debit, credit, pending, posted)
  {
    ShiftColumns(s, debit, credit, pending, posted);
  }

  /** A hold: what is pending already counts, and only the pending columns change. */
  lemma {:induction false} HoldOutcome(s: State, id: TransferId, t: Transfer)
    ensures var (v, r) := Hold(s, id, t);
            if !Between(s, t) then v == s && r.Err? && Misfit(s, t, r.error)
            else if !Unnamed(s, id) then
              v == s && r == if s.transfers[id] == t.(pending := true) then Ok(id) else Err(TransferIdConflict)
            else if !Within(s, t.debit, t.credit, BalanceOf(s, t.debit).debitsPending + t.amount,
                            BalanceOf(s, t.credit).creditsPending + t.amount, 0)
            then v == s && r.Err? && r.error in {ExceedsCredits, ExceedsDebits}
            else
              && r.Ok? && NamedAs(s, id, r.id) && Columns(s, v, t.debit, t.credit, t.amount, 0)
              && v == State(s.accounts, v.balances, s.transfers[r.id := t.(pending := true)], s.minted + 1,
                            Log(s.journal, Held(r.id, t.debit, t.credit, t.amount)))
  {
    hide Shift, CheckBoth;
    if Between(s, t) {
      CheckedWithin(s, t, BalanceOf(s, t.debit).debitsPending + t.amount, BalanceOf(s, t.credit).creditsPending + t.amount, 0);
      var u, v := Shift(s, t.debit, t.credit, t.amount, 0), Hold(s, id, t).0;
      ShiftFrame(s, t.debit, t.credit, t.amount, 0);
      if v.balances == u.balances { SameColumns(s, u, v, t.debit, t.credit, t.amount, 0); }
    }
  }

  /** A post that repeats an earlier one of the same movement; amount zero stands for whatever it was. */
  predicate Repeats(s: State, hold: TransferId, post: TransferId, amount: nat)
    requires hold in s.transfers
  {
    && post != NoTransfer && post in s.transfers && !s.transfers[post].pending
    && s.transfers[post].debit == s.transfers[hold].debit && s.transfers[post].credit == s.transfers[hold].credit
    && (amount == 0 || s.transfers[post].amount == amount)
  }

  /** What a post asks for: an amount of zero means the whole hold. */
  function Asked(hold: Transfer, amount: nat): nat
  {
    match amount
    case 0 => hold.amount
    case _ => amount
  }

  /** A pending hold can be posted in this amount. */
  predicate Postable(s: State, hold: Transfer, amount: nat)
  {
    && Asked(hold, amount) <= hold.amount && hold.debit in s.accounts && hold.credit in s.accounts
    && Within(s, hold.debit, hold.credit, 0, 0, Asked(hold, amount))
  }

  /** The hold after its post: consumed, and left with no amount when the post was partial. */
  predicate Consumed(before: Transfer, after: Transfer, posted: nat)
  {
    && !after.pending && after.debit == before.debit && after.credit == before.credit
    && after.ledger == before.ledger && after.code == before.code
    && after.amount == (if posted == before.amount then before.amount else 0)
  }

  /** When a post is refused or answered again. */
  lemma {:induction false} PostRefused(s: State, hold: TransferId, post: TransferId, amount: nat)
    requires hold !in s.transfers || !s.transfers[hold].pending || !Postable(s, s.transfers[hold], amount)
    ensures var (v, r) := Post(s, hold, post, amount);
            && v == s
            && (hold !in s.transfers ==> r == Err(TransferNotFound))
            && (hold in s.transfers && !s.transfers[hold].pending ==>
                  r == if Repeats(s, hold, post, amount) then Ok(post) else Err(TransferNotPending))
            && (hold in s.transfers && s.transfers[hold].pending ==>
                  r.Err? && (Asked(s.transfers[hold], amount) > s.transfers[hold].amount <==> r.error == AmountExceedsPending))
  {
    hide Shift, CheckBoth;
    if hold in s.transfers && s.transfers[hold].pending {
      var pt := s.transfers[hold];
      if pt.debit in s.accounts && pt.credit in s.accounts { CheckedWithin(s, pt, 0, 0, Asked(pt, amount)); }
    }
  }

  /** Posting a hold releases all of it, moves what was asked for and records the post under the caller's id. */
  lemma {:induction false} PostOutcome(s: State, hold: TransferId, post: TransferId, amount: nat)
    requires hold in s.transfers && s.transfers[hold].pending && Postable(s, s.transfers[hold], amount)
    ensures var (v, r) := Post(s, hold, post, amount);
            var pt, moved := s.transfers[hold], Asked(s.transfers[hold], amount);
            && r.Ok? && NamedAs(s, post, r.id) && Columns(s, v, pt.debit, pt.credit, 0 - pt.amount, moved)
            && v == State(s.accounts, v.balances, v.transfers, s.minted + 1,
                          Log(s.journal, Moved(r.id, hold, pt.debit, pt.credit, moved)))
            && v.transfers.Keys == s.transfers.Keys + {r.id}
            && v.transfers[r.id] == pt.(amount := moved, pending := false)
            && (r.id != hold ==> Consumed(pt, v.transfers[hold], moved))
            && forall x :: x in s.transfers && x != hold && x != r.id ==> v.transfers[x] == s.transfers[x]
  {
    hide Shift, CheckBoth, Columns, Within;
    var pt, amt := s.transfers[hold], Asked(s.transfers[hold], amount);
    CheckedWithin(s, pt, 0, 0, amt);
    ShiftFrame(s, pt.debit, pt.credit, 0 - pt.amount, amt);
    SameColumns(s, Shift(s, pt.debit, pt.credit, 0 - pt.amount, amt), Post(s, hold, post, amount).0, pt.debit, pt.credit, 0 - pt.amount, amt);
  }

  /** Voiding a hold releases all of it, moves nothing, and records the void under a new random id. */
  lemma {:induction false} VoidOutcome(s: State, hold: TransferId)
    ensures var (v, r) := Void(s, hold);
            if hold !in s.transfers then v == s && r == Err(TransferNotFound)
            else if !s.transfers[hold].pending then v == s && r == Err(TransferNotPending)
            else
              var pt, name := s.transfers[hold], Random(s.minted);
              && r == Ok(name) && Columns(s, v, pt.debit, pt.credit, 0 - pt.amount, 0)
              && v == State(s.accounts, v.balances, s.transfers[hold := pt.(pending := false)][name := pt.(code := 3, pending := false)],
                            s.minted + 1, Log(s.journal, Released(hold)))
  {
    hide Shift;
    if hold in s.transfers && s.transfers[hold].pending {
      var pt := s.transfers[hold];
      ShiftFrame(s, pt.debit, pt.credit, 0 - pt.amount, 0);
      SameColumns(s, Shift(s, pt.debit, pt.credit, 0 - pt.amount, 0), Void(s, hold).0, pt.debit, pt.credit, 0 - pt.amount, 0);
    }
  }

  // ---------------------------------------------------------------- accounts

  /** The last entry of the batch for this account. */
  predicate LastFor(batch: seq<AccountSpec>, a: AccountId, i: nat)
  {
    i < |batch| && batch[i].id == a && forall j :: i < j < |batch| ==> batch[j].id != a
  }

  lemma {:induction false} OpenedLast(s: State, batch: seq<AccountSpec>, a: AccountId, i: nat)
    requires LastFor(batch, a, i)
    ensures var v := OpenAll(s, batch);
            a in v.accounts && v.accounts[a] == batch[i].account && BalanceOf(v, a) == Balance(0, 0, 0, 0)
  {
    var n := |batch| - 1;
    if i < n { OpenedLast(s, batch[..n], a, i); }
  }

  lemma {:induction false} OpenedNone(s: State, batch: seq<AccountSpec>, a: AccountId)
    requires forall i :: 0 <= i < |batch| ==> batch[i].id != a
    ensures var v := OpenAll(s, batch);
            && (a in v.accounts <==> a in s.accounts) && (a in s.accounts ==> v.accounts[a] == s.accounts[a])
            && BalanceOf(v, a) == BalanceOf(s, a)
  {
    if batch != [] { OpenedNone(s, batch[..|batch| - 1], a); }
  }

  lemma {:induction false} OpenedOnly(s: State, batch: seq<AccountSpec>)
    ensures var v := OpenAll(s, batch); v == s.(accounts := v.accounts, balances := v.balances)
  {
    if batch != [] { OpenedOnly(s, batch[..|batch| - 1]); }
  }

  /** An account after the batch: as its last entry says, with nothing on it, or as before when no entry names it. */
  ghost predicate OpenedAs(s: State, v: State, batch: seq<AccountSpec>, a: AccountId)
  {
    && (forall i: nat :: LastFor(batch, a, i) ==>
          a in v.accounts && v.accounts[a] == batch[i].account && BalanceOf(v, a) == Balance(0, 0, 0, 0))
    && ((forall i :: 0 <= i < |batch| ==> batch[i].id != a) ==>
          && (a in v.accounts <==> a in s.accounts) && (a in s.accounts ==> v.accounts[a] == s.accounts[a])
          && BalanceOf(v, a) == BalanceOf(s, a))
  }

  lemma {:induction false} OpenedEach(s: State, batch: seq<AccountSpec>, a: AccountId)
    ensures OpenedAs(s, OpenAll(s, batch), batch, a)
  {
    hide OpenAll, BalanceOf;
    var v := OpenAll(s, batch);
    forall i: nat | LastFor(batch, a, i) ensures a in v.accounts && v.accounts[a] == batch[i].account && BalanceOf(v, a) == Balance(0, 0, 0, 0) {
      OpenedLast(s, batch, a, i);
    }
    if forall i :: 0 <= i < |batch| ==> batch[i].id != a { OpenedNone(s, batch, a); }
  }

  /**
   A batch of accounts is refused whole when one has no id or exists already. Otherwise every account named is open as
   its last entry says, with nothing on it, and every other is as before.
   */
  lemma {:induction false} CreateOutcome(s: State, batch: seq<AccountSpec>, a: AccountId)
    ensures var (v, e) := CreateAccounts(s, batch);
            if exists i :: 0 <= i < |batch| && (batch[i].id == NoAccount || batch[i].id in s.accounts) then v == s && e.Some?
            else e == None && v == s.(accounts := v.accounts, balances := v.balances) && OpenedAs(s, v, batch, a)
  {
    hide OpenAll, OpenedAs;
    OpenedOnly(s, batch);
    OpenedEach(s, batch, a);
  }

  /** The error names the first entry that is refused. */
  lemma {:induction false} CreateRefusedFor(accounts: map<AccountId, Account>, batch: seq<AccountSpec>, i: nat)
    requires i < |batch| && (batch[i].id == NoAccount || batch[i].id in accounts)
    requires forall j :: 0 <= j < i ==> batch[j].id != NoAccount && batch[j].id !in accounts
    ensures RefusedBy(accounts, batch) == Some(if batch[i].id == NoAccount then AccountIdRequired else AccountExists)
  {
    if i > 0 {
      assert forall j :: 0 <= j < |batch| - 1 ==> batch[1..][j] == batch[j + 1];
      CreateRefusedFor(accounts, batch[1..], i - 1);
    }
  }
}
