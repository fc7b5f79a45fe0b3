/**
 The in-memory ledger client (internal/platform/ledger/ledger.go), which updates
 its account, balance and transfer maps in place. Every method is proved to take
 the ledger state where the corresponding function of `Ledger` takes it.
 */
module DevLedger {
  import opened Prelude
  import opened Ids
  import opened Ledger

  class DevClient {
    var accounts: map<AccountId, Account>
    var balances: map<AccountId, Balance>
    var transfers: map<TransferId, Transfer>
    // Stands for the random source of NewTransferID: the next draw is Random(minted).
    var minted: nat
    ghost var journal: Journal

    ghost function Model(): State
      reads this
    {
      State(accounts, balances, transfers, minted, journal)
    }

    ghost predicate Valid()
      reads this
    {
      && accounts.Keys == balances.Keys
      && (forall id :: id in transfers ==> transfers[id].debit in accounts && transfers[id].credit in accounts)
    }

    constructor ()
      ensures Valid() && Model() == INITIAL
    {
      accounts, balances, transfers, minted, journal := map[], map[], map[], 0, Empty;
    }

    method CreateAccounts(batch: seq<AccountSpec>) returns (error: Option<Error>)
      requires Valid()
      modifies this
      ensures Valid() && (Model(), error) == Ledger.CreateAccounts(old(Model()), batch)
    {
      for i := 0 to |batch|
        invariant RefusedBy(accounts, batch) == RefusedBy(accounts, batch[i..])
        invariant unchanged(this)
      {
        assert batch[i..][1..] == batch[i + 1..];
        if batch[i].id == NoAccount { return Some(AccountIdRequired); }
        if batch[i].id in accounts { return Some(AccountExists); }
      }
      for i := 0 to |batch|
        invariant Model() == OpenAll(old(Model()), batch[..i])
        invariant Valid() && transfers == old(transfers)
      {
        assert batch[..i + 1][..i] == batch[..i];
        accounts := accounts[batch[i].id := batch[i].account];
        balances := balances[batch[i].id := ZERO_BALANCE];
      }
      assert batch[..|batch|] == batch;
      error := None;
    }

    /** Adds to the debit columns, then to the credit columns; the two accounts may be the same. */
    method Enter(debit: AccountId, credit: AccountId, pending: int, posted: int)
      requires debit in balances && credit in balances
      modifies this`balances
      ensures Model() == Shift(old(Model()), debit, credit, pending, posted)
      ensures balances.Keys == old(balances.Keys)
    {
      var db := balances[debit];
      balances := balances[debit := db.(debitsPending := db.debitsPending + pending,
                                        debitsPosted := db.debitsPosted + posted)];
      var cb := balances[credit];
      balances := balances[credit := cb.(creditsPending := cb.creditsPending + pending,
                                         creditsPosted := cb.creditsPosted + posted)];
    }

    /** Enters the amounts of a new record and stores it. */
    method Write(name: TransferId, t: Transfer, pending: int, posted: int, ghost e: Entry)
      requires Valid() && t.debit in accounts && t.credit in accounts
      modifies this
      ensures Valid() && Model() == Record(Shift(old(Model()), t.debit, t.credit, pending, posted), name, t, e)
    {
      hide Shift;
      Enter(t.debit, t.credit, pending, posted);
      transfers := transfers[name := t];
      journal := Log(journal, e);
      minted := minted + 1;
    }

    method Transfer(id: TransferId, t: Transfer) returns (r: Result)
      requires Valid()
      modifies this
      ensures Valid() && (Model(), r) == Direct(old(Model()), id, t)
      ensures r.Err? ==> Model() == old(Model())
    {
      hide Shift, Record, CheckFlags;
      if t.amount == 0 { return Err(AmountZero); }
      if t.debit !in accounts || t.credit !in accounts { return Err(AccountNotFound); }
      if accounts[t.debit].ledger != accounts[t.credit].ledger { return Err(LedgerMismatch); }
      if id != NoTransfer && id in transfers {
        if SameTransfer(transfers[id], t, false) { return Ok(id); }
        return Err(TransferIdConflict);
      }
      var over := CheckFlags(accounts[t.debit], balances[t.debit], 0, t.amount, 0, 0);
      if over.Some? { return Err(over.value); }
      over := CheckFlags(accounts[t.credit], balances[t.credit], 0, 0, 0, t.amount);
      if over.Some? { return Err(over.value); }
      assert CheckBoth(Model(), t, 0, 0, t.amount).None?;
      var name := if id == NoTransfer then Random(minted) else id;
      Write(name, t.(pending := false), 0, t.amount, Moved(name, NoTransfer, t.debit, t.credit, t.amount));
      r := Ok(name);
    }

    method PendingTransfer(id: TransferId, t: Transfer) returns (r: Result)
      requires Valid()
      modifies this
      ensures Valid() && (Model(), r) == Hold(old(Model()), id, t)
      ensures r.Err? ==> Model() == old(Model())
    {
      hide Shift, Record, CheckFlags;
      if t.amount == 0 { return Err(AmountZero); }
      if t.debit !in accounts || t.credit !in accounts { return Err(AccountNotFound); }
      if accounts[t.debit].ledger != accounts[t.credit].ledger { return Err(LedgerMismatch); }
      if id != NoTransfer && id in transfers {
        if SameTransfer(transfers[id], t, true) { return Ok(id); }
        return Err(TransferIdConflict);
      }
      var db, cb := balances[t.debit], balances[t.credit];
      var over := CheckFlags(accounts[t.debit], db, db.debitsPending + t.amount, 0, 0, 0);
      if over.Some? { return Err(over.value); }
      over := CheckFlags(accounts[t.credit], cb, 0, 0, cb.creditsPending + t.amount, 0);
      if over.Some? { return Err(over.value); }
      assert CheckBoth(Model(), t, db.debitsPending + t.amount, cb.creditsPending + t.amount, 0).None?;
      var name := if id == NoTransfer then Random(minted) else id;
      Write(name, t.(pending := true), t.amount, 0, Held(name, t.debit, t.credit, t.amount));
      r := Ok(name);
    }

    /** The checks of PostPendingAs, in order; a consumed hold is accepted where its post is in place. */
    method CheckPost(hold: TransferId, post: TransferId, amount: nat) returns (refusal: Option<Error>)
      requires Valid()
      ensures refusal == PostRefusal(Model(), hold, post, amount)
    {
      hide CheckFlags;
      if hold !in transfers { return Some(TransferNotFound); }
      var pt := transfers[hold];
      if !pt.pending {
        if post != NoTransfer && post in transfers {
          var done := transfers[post];
          if !done.pending && done.debit == pt.debit && done.credit == pt.credit && (amount == 0 || done.amount == amount) {
            return None;
          }
        }
        return Some(TransferNotPending);
      }
      var amt := if amount == 0 then pt.amount else amount;
      if amt > pt.amount { return Some(AmountExceedsPending); }
      refusal := CheckFlags(accounts[pt.debit], balances[pt.debit], 0, amt, 0, 0);
      if refusal.Some? { return; }
      refusal := CheckFlags(accounts[pt.credit], balances[pt.credit], 0, 0, 0, amt);
    }

    method PostPendingAs(hold: TransferId, post: TransferId, amount: nat) returns (r: Result)
      requires Valid()
      modifies this
      ensures Valid() && (Model(), r) == Post(old(Model()), hold, post, amount)
      ensures r.Err? ==> Model() == old(Model())
    {
      hide Shift, CheckFlags, PostedRecords;
      var refusal := CheckPost(hold, post, amount);
      if refusal.Some? { return Err(refusal.value); }
      var pt := transfers[hold];
      if !pt.pending { return Ok(post); }
      var name := if post == NoTransfer then Random(minted) else post;
      Consume(hold, name, if amount == 0 then pt.amount else amount);
      r := Ok(name);
    }

    /** Moves a hold's money; the remainder of a partial post is released by zeroing the consumed hold. */
    method Consume(hold: TransferId, name: TransferId, amt: nat)
      requires Valid() && hold in transfers
      modifies this
      ensures Valid()
      ensures var s := old(Model()); var pt := s.transfers[hold];
              Model() == Shift(s, pt.debit, pt.credit, 0 - pt.amount, amt).(
                           transfers := PostedRecords(s.transfers, hold, name, amt),
                           minted := s.minted + 1,
                           journal := Log(s.journal, Moved(name, hold, pt.debit, pt.credit, amt)))
    {
      hide Shift;
      var pt := transfers[hold];
      Enter(pt.debit, pt.credit, 0 - pt.amount, amt);
      var consumed := pt.(pending := false, amount := if amt < pt.amount then 0 else pt.amount);
      transfers := transfers[hold := consumed][name := pt.(amount := amt, pending := false)];
      journal := Log(journal, Moved(name, hold, pt.debit, pt.credit, amt));
      minted := minted + 1;
    }

    method VoidPending(hold: TransferId) returns (r: Result)
      requires Valid()
      modifies this
      ensures Valid() && (Model(), r) == Void(old(Model()), hold)
      ensures r.Err? ==> Model() == old(Model())
    {
      hide Shift;
      if hold !in transfers { return Err(TransferNotFound); }
      var pt := transfers[hold];
      if !pt.pending { return Err(TransferNotPending); }
      Enter(pt.debit, pt.credit, 0 - pt.amount, 0);
      transfers := transfers[hold := pt.(pending := false)];
      transfers := transfers[Random(minted) := pt.(code := CODE_VOID, pending := false)];
      journal := Log(journal, Released(hold));
      r := Ok(Random(minted));
      minted := minted + 1;
    }
  }
}
