/**
 Agent float (services/presumptive/float.go): every top-up or debit is a saga of
 hold, record, post, mark, and a sweeper finishes what a crash left behind. The
 functions act on the durable world.

 A process may die between any two durable calls: `life` counts the calls it
 still makes, and later calls have no effect. Store faults are parameters.
 */
module Floats {
  import opened Prelude
  import opened Ids
  import L = Ledger

  datatype Status = Pending | Posted | Voided

  datatype Movement = Movement(kind: MovementKind, reference: string, agent: string, amount: nat, status: Status)

  /** movementID: one logical movement per (kind, reference). */
  datatype Key = Key(kind: MovementKind, reference: string)

  datatype World = World(movements: map<Key, Movement>, enlisted: set<string>, books: L.State, life: Life)

  /** Which of the store writes fail. */
  datatype Faults = Faults(account: bool, record: bool, mark: bool, voidMark: bool)

  const NO_FAULTS := Faults(false, false, false, false)

  const FLOAT_ACCOUNT := L.Account(L.LEDGER_AGENT_FLOAT, true, false)

  function KeyOf(m: Movement): Key { Key(m.kind, m.reference) }
  function HoldId(m: Movement): TransferId { FloatPending(m.kind, m.reference) }
  function PostId(m: Movement): TransferId { FloatPost(m.kind, m.reference) }

  function HoldTransfer(m: Movement): L.Transfer
  {
    match m.kind
    case Topup => L.Transfer(FloatTreasury, AgentFloat(m.agent), L.LEDGER_AGENT_FLOAT, L.CODE_TOPUP, m.amount, true)
    case Debit => L.Transfer(AgentFloat(m.agent), FloatTreasury, L.LEDGER_AGENT_FLOAT, L.CODE_SETTLE, m.amount, true)
  }

  // ---------------------------------------------------------------- durable calls

  /** One ledger call. */
  function Do(w: World, op: L.Op): World
  {
    if w.life == For(0) then w else w.(life := Tick(w.life), books := L.Step(w.books, op))
  }

  /** Put("float_movements", ...). */
  function Save(w: World, m: Movement, fault: bool): World
  {
    if w.life == For(0) then w
    else if fault then w.(life := Tick(w.life))
    else w.(life := Tick(w.life), movements := w.movements[KeyOf(m) := m])
  }

  /** Put("float_accounts", ...). */
  function Enlist(w: World, agent: string, fault: bool): World
  {
    if w.life == For(0) then w
    else if fault then w.(life := Tick(w.life))
    else w.(life := Tick(w.life), enlisted := w.enlisted + {agent})
  }

  function OpenAccount(a: AccountId): L.Op
  {
    L.DoCreate([L.AccountSpec(a, FLOAT_ACCOUNT)])
  }

  // ---------------------------------------------------------------- operations

  /** Open: creates the agent's account, which may exist already, and records it. */
  function Open(w: World, agent: string, fault: bool): World
  {
    if agent in w.enlisted then w else Enlist(Do(w, OpenAccount(AgentFloat(agent))), agent, fault)
  }

  function EnsureTreasury(w: World): World
  {
    if FloatTreasury in w.books.accounts then w else Do(w, OpenAccount(FloatTreasury))
  }

  /** move, for both kinds. */
  function Move(w: World, kind: MovementKind, agent: string, amount: nat, reference: string, f: Faults): (World, Option<Movement>)
  {
    if reference == "" then (w, None)
    else if Key(kind, reference) in w.movements then (w, Some(w.movements[Key(kind, reference)]))
    else
      var w1 := Open(w, agent, f.account);
      if f.account && agent !in w.enlisted then (w1, None)
      else Place(EnsureTreasury(w1), Movement(kind, reference, agent, amount, Pending), f)
  }

  /** Hold and record; a failed record releases the hold. */
  function Place(w: World, m: Movement, f: Faults): (World, Option<Movement>)
  {
    if L.Hold(w.books, HoldId(m), HoldTransfer(m)).1.Err? then (w, None)
    else
      var w1 := Save(Do(w, L.DoHold(HoldId(m), HoldTransfer(m))), m, f.record);
      if f.record then (Do(w1, L.DoVoid(HoldId(m))), None) else Settle(w1, m, f)
  }

  /** Post and mark; a refused post releases the hold. */
  function Settle(w: World, m: Movement, f: Faults): (World, Option<Movement>)
  {
    if L.Post(w.books, HoldId(m), PostId(m), m.amount).1.Ok? then
      (Save(Do(w, L.DoPost(HoldId(m), PostId(m), m.amount)), m.(status := Posted), f.mark),
       if f.mark then None else Some(m.(status := Posted)))
    else
      (Save(Do(w, L.DoVoid(HoldId(m))), m.(status := Voided), f.voidMark), None)
  }

  /** One row of SweepFloatMovements, as listed at the start of the sweep. */
  function SweepOne(w: World, m: Movement, f: Faults): World
  {
    if m.status != Pending then w
    else if L.Post(w.books, HoldId(m), PostId(m), m.amount).1.Ok? then
      Save(Do(w, L.DoPost(HoldId(m), PostId(m), m.amount)), m.(status := Posted), f.mark)
    else if L.Void(w.books, HoldId(m)).1.Ok? then
      Save(Do(w, L.DoVoid(HoldId(m))), m.(status := Voided), f.voidMark)
    else w
  }

  function Sweep(w: World, listed: seq<Movement>, f: Key -> Faults): World
  {
    if listed == [] then w
    else SweepOne(Sweep(w, listed[..|listed| - 1], f), listed[|listed| - 1], f(KeyOf(listed[|listed| - 1])))
  }

  datatype Op =
    | DoMove(kind: MovementKind, agent: string, amount: nat, reference: string, f: Faults)
    | DoSweep(listed: seq<Movement>, faults: Key -> Faults)
    | DoElsewhere(op: L.Op)  // another service uses the same ledger

  /** A process with the given life runs one operation. */
  function Step(w: World, op: Op, life: Life): World
  {
    var v := w.(life := life);
    match op
    case DoMove(kind, agent, amount, reference, f) => Move(v, kind, agent, amount, reference, f).0
    case DoSweep(listed, faults) => Sweep(v, listed, faults)
    case DoElsewhere(op) => v.(books := L.Step(v.books, op))
  }
}
