/** The events a stream puts on the wire, and the closed vocabularies of their reasons. */
module Protocol {

  datatype FailoverReason = DeadSocket | SilentHang | Malformed

  datatype TruncatedReason = AllProvidersExhausted | BudgetExceeded

  datatype Event =
    | Status(provider: string)
    | Content(text: string)
    | Failover(reason: FailoverReason, tokens: int, from: string, to: string, attempt: int)
    | Regenerating
    | Truncated(why: TruncatedReason, delivered: int)
}
