module Events {
  import opened Wrappers
  import opened JsonTree

  datatype Code =
    | BAD_DELTA | UNKNOWN_EVENT | DUPLICATE_CAL | AGENT_BUSY | UNKNOWN_CAL | BAD_STAGE
    | INSUFFICIENT_BALANCE | OVERFLOW | UNDERFLOW | BAD_TICK | BAD_OWNER_RECORD

  type Notes = map<string, Json>

  datatype Event =
    | CalCreated(ch: string, agent: string)
    | CalSigned(ch: string)
    | CalValidated(ch: string, escrow: Option<nat>, notes: Notes)
    | CalExecuted(ch: string, effects: Option<seq<Json>>, gas: Option<nat>, notes: Notes)
    | CalSettled(ch: string)
    | CalFinalized(ch: string, refund: Option<nat>, notes: Notes)
    | CalFailed(ch: string, feeDebited: Option<nat>, refund: Option<nat>, notes: Notes)
    | CalExpired(ch: string, feeDebited: Option<nat>, refund: Option<nat>, notes: Notes)
    | Transferred(from: string, to: string, amount: nat)
    | ShadowInit(addr: string)
    | FeedSubmitted(symbol: string, value: Json)
    | TickAdvanced(newTick: nat)
    | Unreadable(knownType: bool)

  /** A field the reducer needs by the time it gets there. */
  function Need<T>(v: Option<T>): Result<T, Code> {
    match v case None => Err(BAD_DELTA) case Some(x) => Ok(x)
  }
}
