/** Records that cross service boundaries. */
module Records {
  import opened Options

  /** Idempotency keys and transaction ids are both strings, and both index the guard's table. */
  type Id = string

  datatype TxnState = INITIATED | PROCESSING | SUCCESS | FAILED

  /** How a table call ends for its caller: it took effect and replied, it was refused without
      effect and raised, or it took effect but raised because the reply was lost. */
  datatype Fate = Done | Refused | Lost

  /** The response the switch hands to the guard, and the guard hands back, without its message. */
  datatype Payload = Payload(txnId: Id, status: TxnState, bankRrn: Option<string>)
}
