/**
 The two-phase double-entry ledger (internal/platform/ledger/ledger.go):
 immediate transfers, pending holds, posts and voids, overdraft flags and
 idempotent client-chosen ids, as operations on a ledger state.

 Amounts are unbounded: the model leaves out uint64 wrap-around of balances.
 The pending columns are plain integers, so that never going negative is a
 theorem (`PendingNeverUnderflows`) and not an assumption.
 */
module Ledger {
  import opened Prelude
  import opened Ids

  const LEDGER_AGENT_FLOAT := 100
  const LEDGER_PSM_PAYMENTS := 200
  const LEDGER_COMMISSIONS := 700

  const CODE_AUTHORISE := 1
  const CODE_VOID := 3
  const CODE_TOPUP := 4
  const CODE_SETTLE := 5
  const CODE_HOLD := 6

  datatype Account = Account(ledger: nat, debitsCapped: bool, creditsCapped: bool)

  datatype Balance = Balance(debitsPosted: int, creditsPosted: int, debitsPending: int, creditsPending: int)

  const ZERO_BALANCE := Balance(0, 0, 0, 0)

  datatype Transfer = Transfer(debit: AccountId, credit: AccountId, ledger: nat, code: nat, amount: nat, pending: bool)

  datatype Error =
    | AccountIdRequired
    | AccountExists
    | AccountNotFound
    | TransferNotFound
    | TransferNotPending
    | ExceedsCredits
    | ExceedsDebits
    | LedgerMismatch
    | AmountZero
    | AmountExceedsPending
    | TransferIdConflict

  datatype Result = Ok(id: TransferId) | Err(error: Error)

  /** What happened, in order. Only `Moved` entries move posted money. */
  datatype Entry =
    | Held(id: TransferId, debit: AccountId, credit: AccountId, amount: nat)
    | Moved(id: TransferId, hold: TransferId, debit: AccountId, credit: AccountId, amount: nat)
    | Released(hold: TransferId)

  datatype Journal = Empty | Log(past: Journal, entry: Entry)

  datatype State = State(
    accounts: map<AccountId, Account>,
    balances: map<AccountId, Balance>,
    transfers: map<TransferId, Transfer>,
    minted: nat,
    journal: Journal)

  const INITIAL := State(map[], map[], map[], 0, Empty)

  // ---------------------------------------------------------------- operations

  datatype AccountSpec = AccountSpec(id: AccountId, account: Account)

  /** The first loop of CreateAccounts: the error, if any, that refuses the batch. */
  function RefusedBy(accounts: map<AccountId, Account>, batch: seq<AccountSpec>): (r: Option<Error>)
    ensures r.None? <==> forall i :: 0 <= i < |batch| ==> batch[i].id != NoAccount && batch[i].id !in accounts
  {
    if batch == [] then None
    else if batch[0].id == NoAccount then Some(AccountIdRequired)
    else if batch[0].id in accounts then Some(AccountExists)
    else
      assert forall i :: 1 <= i < |batch| ==> batch[i] == batch[1..][i - 1];
      RefusedBy(accounts, batch[1..])
  }

  /** The second loop of CreateAccounts: write every account with a zero balance. */
  function OpenAll(s: State, batch: seq<AccountSpec>): State
  {
    if batch == [] then s
    else
      var n := |batch| - 1;
      var s' := OpenAll(s, batch[..n]);
      s'.(accounts := s'.accounts[batch[n].id := batch[n].account],
          balances := s'.balances[batch[n].id := ZERO_BALANCE])
  }

  function CreateAccounts(s: State, batch: seq<AccountSpec>): (State, Option<Error>)
  {
    var refused := RefusedBy(s.accounts, batch);
    if refused.Some? then (s, refused) else (OpenAll(s, batch), None)
  }

  function BalanceOf(s: State, a: AccountId): Balance
  {
    if a in s.balances then s.balances[a] else ZERO_BALANCE
  }

  function CheckFlags(a: Account, b: Balance, addDebitPending: int, addDebitPosted: int,
                      addCreditPending: int, addCreditPosted: int): Option<Error>
  {
    if a.debitsCapped && b.debitsPosted + addDebitPosted + addDebitPending > b.creditsPosted + addCreditPosted then
      Some(ExceedsCredits)
    else if a.creditsCapped && b.creditsPosted + addCreditPosted + addCreditPending > b.debitsPosted + addDebitPosted then
      Some(ExceedsDebits)
    else None
  }

  function Pair(s: State, t: Transfer): Option<Error>
  {
    if t.amount == 0 then Some(AmountZero)
    else if t.debit !in s.accounts || t.credit !in s.accounts then Some(AccountNotFound)
    else if s.accounts[t.debit].ledger != s.accounts[t.credit].ledger then Some(LedgerMismatch)
    else None
  }

  function CheckBoth(s: State, t: Transfer, heldBefore: int, heldCredits: int, posted: int): Option<Error>
    requires t.debit in s.accounts && t.credit in s.accounts
  {
    var e := CheckFlags(s.accounts[t.debit], BalanceOf(s, t.debit), heldBefore, posted, 0, 0);
    if e.Some? then e
    else CheckFlags(s.accounts[t.credit], BalanceOf(s, t.credit), 0, 0, heldCredits, posted)
  }

  /** Adds to the debit columns of one account, then to the credit columns of the other (possibly the same). */
  function Shift(s: State, debit: AccountId, credit: AccountId, pending: int, posted: int): State
  {
    var db := BalanceOf(s, debit);
    var s1 := s.(balances := s.balances[debit := db.(debitsPending := db.debitsPending + pending,
                                                     debitsPosted := db.debitsPosted + posted)]);
    var cb := BalanceOf(s1, credit);
    s1.(balances := s1.balances[credit := cb.(creditsPending := cb.creditsPending + pending,
                                              creditsPosted := cb.creditsPosted + posted)])
  }

  function NameFor(s: State, id: TransferId): TransferId
  {
    if id == NoTransfer then Random(s.minted) else id
  }

  function Record(s: State, id: TransferId, t: Transfer, e: Entry): State
  {
    s.(transfers := s.transfers[id := t], minted := s.minted + 1, journal := Log(s.journal, e))
  }

  /** sameTransfer: an existing record matches a requested creation. */
  predicate SameTransfer(existing: Transfer, t: Transfer, pending: bool)
  {
    existing == t.(pending := pending)
  }

  /** Transfer: an immediate double-entry movement. */
  function Direct(s: State, id: TransferId, t: Transfer): (State, Result)
  {
    var bad := Pair(s, t);
    if bad.Some? then (s, Err(bad.value))
    else if id != NoTransfer && id in s.transfers then
      (s, if SameTransfer(s.transfers[id], t, false) then Ok(id) else Err(TransferIdConflict))
    else
      var over := CheckBoth(s, t, 0, 0, t.amount);
      if over.Some? then (s, Err(over.value))
      else
        var name := NameFor(s, id);
        (Record(Shift(s, t.debit, t.credit, 0, t.amount), name, t.(pending := false),
                Moved(name, NoTransfer, t.debit, t.credit, t.amount)),
         Ok(name))
  }

  /** PendingTransfer: a hold. Pending amounts count against the flags. */
  function Hold(s: State, id: TransferId, t: Transfer): (State, Result)
  {
    var bad := Pair(s, t);
    if bad.Some? then (s, Err(bad.value))
    else if id != NoTransfer && id in s.transfers then
      (s, if SameTransfer(s.transfers[id], t, true) then Ok(id) else Err(TransferIdConflict))
    else
      var over := CheckBoth(s, t, BalanceOf(s, t.debit).debitsPending + t.amount,
                            BalanceOf(s, t.credit).creditsPending + t.amount, 0);
      if over.Some? then (s, Err(over.value))
      else
        var name := NameFor(s, id);
        (Record(Shift(s, t.debit, t.credit, t.amount, 0), name, t.(pending := true),
                Held(name, t.debit, t.credit, t.amount)),
         Ok(name))
  }

  /** The error PostPendingAs returns, `None` when it answers with an id. */
  function PostRefusal(s: State, hold: TransferId, post: TransferId, amount: nat): Option<Error>
  {
    if hold !in s.transfers then Some(TransferNotFound)
    else
      var pt := s.transfers[hold];
      if !pt.pending then
        if post != NoTransfer && post in s.transfers && !s.transfers[post].pending
           && s.transfers[post].debit == pt.debit && s.transfers[post].credit == pt.credit
           && (amount == 0 || s.transfers[post].amount == amount)
        then None
        else Some(TransferNotPending)
      else
        var amt := if amount == 0 then pt.amount else amount;
        if amt > pt.amount then Some(AmountExceedsPending)
        else if pt.debit !in s.accounts || pt.credit !in s.accounts then Some(AccountNotFound)
        else CheckBoth(s, pt, 0, 0, amt)
  }

  /** The records an accepted post leaves: the hold consumed (zeroed when the post is partial), the post written. */
  function PostedRecords(m: map<TransferId, Transfer>, hold: TransferId, name: TransferId, amount: nat): map<TransferId, Transfer>
    requires hold in m
  {
    var pt := m[hold];
    m[hold := pt.(pending := false, amount := if amount < pt.amount then 0 else pt.amount)]
     [name := pt.(amount := amount, pending := false)]
  }

  /** PostPendingAs: capture a hold under a caller-chosen id; a consumed hold with its post in place replays. */
  function Post(s: State, hold: TransferId, post: TransferId, amount: nat): (State, Result)
  {
    var refusal := PostRefusal(s, hold, post, amount);
    if refusal.Some? then (s, Err(refusal.value))
    else if !s.transfers[hold].pending then (s, Ok(post))
    else
      var pt := s.transfers[hold];
      var amt := if amount == 0 then pt.amount else amount;
      var name := NameFor(s, post);
      (Shift(s, pt.debit, pt.credit, 0 - pt.amount, amt).(
         transfers := PostedRecords(s.transfers, hold, name, amt),
         minted := s.minted + 1,
         journal := Log(s.journal, Moved(name, hold, pt.debit, pt.credit, amt))),
       Ok(name))
  }

  /** VoidPending: release a hold without moving money. */
  function Void(s: State, hold: TransferId): (State, Result)
  {
    if hold !in s.transfers then (s, Err(TransferNotFound))
    else if !s.transfers[hold].pending then (s, Err(TransferNotPending))
    else
      var pt := s.transfers[hold];
      var name := Random(s.minted);
      var s1 := Shift(s, pt.debit, pt.credit, 0 - pt.amount, 0);
      var s2 := s1.(transfers := s1.transfers[hold := pt.(pending := false)]);
      (Record(s2, name, pt.(code := CODE_VOID, pending := false), Released(hold)), Ok(name))
  }

  // ---------------------------------------------------------------- runs

  datatype Op =
    | DoCreate(batch: seq<AccountSpec>)
    | DoDirect(id: TransferId, t: Transfer)
    | DoHold(id: TransferId, t: Transfer)
    | DoPost(hold: TransferId, post: TransferId, amount: nat)
    | DoVoid(hold: TransferId)

  function Step(s: State, op: Op): State
  {
    match op
    case DoCreate(batch) => CreateAccounts(s, batch).0
    case DoDirect(id, t) => Direct(s, id, t).0
    case DoHold(id, t) => Hold(s, id, t).0
    case DoPost(hold, post, amount) => Post(s, hold, post, amount).0
    case DoVoid(hold) => Void(s, hold).0
  }

  function Run(s: State, ops: seq<Op>): State
  {
    if ops == [] then s else Step(Run(s, ops[..|ops| - 1]), ops[|ops| - 1])
  }
}
