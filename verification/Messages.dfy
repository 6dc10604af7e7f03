/** The envelopes two peers exchange, and the receiver's gate. */
module Messages {
  import opened Wrappers
  import opened ChannelHistory

  datatype RejectCode =
    | UnknownContact | Frozen | Busy | StalePool | UnknownMember | Malformed | BadPrice | PriceMismatch

  datatype ErrorCode =
    | Refused | InvalidPayload | DuplicateContact | NoContact | ContactFrozen | ContactBusy | StaleOp
    | InsufficientReserve | WrongSender | UnknownTransfer | BadState | Internal | UnknownType

  datatype Body =
    | ContactPropose(contactId: Id, mySeed: int)
    | ContactAccept(contactId: Id, mySeed: int)
    | ContactUpdate(contactId: Id)
    | ContactClose(contactId: Id)
    | TransferPropose(transferId: Id, contactId: Id, opSeq: int, fromMember: string, toMember: string,
                      src: int, dst: int, expires: int)
    | TransferAccept(transferId: Id)
    | TransferReject(transferId: Id, code: RejectCode)
    | TransferCommit(transferId: Id)
    | TransferReceipt(transferId: Id)
    | TransferAbort(transferId: Id)
    | ReserveAdjust(contactId: Id, opSeq: int, adjustId: Id, myDelta: int)
    | ReserveAccept(contactId: Id, adjustId: Id)
    | Ping
    | Pong
    | ErrorReply(error: ErrorCode)
    | Unknown

  /** One signed envelope of a channel; seq counts from 1 per channel. */
  datatype Envelope = Envelope(id: Id, seqNo: int, created: int, body: Body)

  datatype Verdict = Ok | Duplicate | StaleSeq | TooOld | Future

  const MAX_AGE := 7 * 24 * 3600
  const MAX_FUTURE := 3600

  /** The gate, in its fixed order: known ids, then the sequence number, then age. */
  function Validate(env: Envelope, seen: set<Id>, lastSeq: int, now: int): Verdict {
    if env.id in seen then Duplicate
    else if env.seqNo <= lastSeq then StaleSeq
    else if now - env.created > MAX_AGE then TooOld
    else if env.created - now > MAX_FUTURE then Future
    else Ok
  }
}
