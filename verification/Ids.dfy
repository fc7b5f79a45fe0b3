/**
 Identifiers shared by the services. The source derives them by hashing tagged
 strings; here each tag is a constructor, so distinct seeds give distinct ids.
 */
module Ids {

  type PaymentId = string
  type SessionId = string

  datatype MovementKind = Topup | Debit

  /** A 128-bit account id: namespace and serial; `NoAccount` is the empty string. */
  datatype AccountId =
    | NoAccount
    | Payer(tin: string)
    | Collections
    | FeeIncome
    | DisputeHold
    | NipClearing
    | AgentFloat(agent: string)
    | FloatTreasury
    | CommissionPool
    | CommissionTreasury
    | AgentCommission(agent: string)
    | OtherAccount(name: string)

  /**
   A transfer id: the empty string, a random id drawn by the ledger, or
   DeterministicTransferID of a tagged seed.
   */
  datatype TransferId =
    | NoTransfer
    | Random(n: nat)
    | PsmIntent(pay: PaymentId)
    | PsmPost(pay: PaymentId)
    | PsmFee(pay: PaymentId)
    | PsmCompensation(pay: PaymentId)
    | PsmDisputeHold(pay: PaymentId)
    | PsmDisputeDebit(pay: PaymentId)
    | CommFund(tenant: string, reference: string, total: nat)
    | CommHold(tenant: string, reference: string, level: nat)
    | CommPost(tenant: string, reference: string, level: nat)
    | CommClawback(tenant: string, reference: string, level: nat)
    | FloatPending(kind: MovementKind, reference: string)
    | FloatPost(kind: MovementKind, reference: string)
    | NipLeg(session: SessionId)
    | NipPost(session: SessionId)
    | OtherTransfer(seed: string)
}
