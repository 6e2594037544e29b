/** The records exchanged by the pipeline (internal/domain). Amounts are
    float64 in the source; here they are integers, since the pipeline only
    copies and compares them. Timestamps, e-mail and database bookkeeping
    columns are not modelled. */
module Domain {

  /** An incoming transaction; never mutated. */
  datatype Transaction = Transaction(
    id: string,
    userId: string,
    amount: int,
    currency: string,
    merchant: string,
    location: string,
    ip: string)

  /** A user profile; maxTx/avgTx are derived, not stored. */
  datatype User = User(
    id: string,
    riskScore: int,
    isBanned: bool,
    maxTx: int,
    avgTx: int)

  /** The verdict for one transaction, as published and as cached. */
  datatype FraudAlert = FraudAlert(
    transactionId: string,
    reason: string,
    aiPushMsg: string,
    isBlocked: bool,
    amount: int,
    location: string,
    merchant: string)

  /** The audit record written once per evaluated transaction. */
  datatype FraudEvent = FraudEvent(
    transactionId: string,
    userId: string,
    merchant: string,
    amount: int,
    location: string,
    isBlocked: bool,
    aiReason: string,
    aiPushMsg: string)
}
