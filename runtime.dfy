/** The host-side values a contract handler sees and returns: token identifiers,
    transfers, call descriptors and responses, and the failure kinds. The host
    itself (storage backend, fuel metering, the remote contract) is not modelled;
    what a handler needs from it arrives as a parameter. */
module Runtime {
  import opened Bytes

  /** An alkane (token contract) id: the block and transaction that created it. */
  datatype AlkaneId = AlkaneId(block: u128, tx: u128)

  datatype AlkaneTransfer = AlkaneTransfer(id: AlkaneId, value: u128)

  /** A handler's answer: the transfers it passes on and its data bytes. */
  datatype CallResponse = CallResponse(alkanes: seq<AlkaneTransfer>, data: seq<byte>)

  /** A call descriptor: the contract to call and its input words (opcode first). */
  datatype Cellpack = Cellpack(target: AlkaneId, inputs: seq<u128>)

  /** What the host tells a handler about the current call. */
  datatype Context = Context(myself: AlkaneId, caller: AlkaneId, incomingAlkanes: seq<AlkaneTransfer>)

  /** Failures. Every one aborts the call; a Rust panic and an `Err` are both modelled as one of these. */
  datatype Error =
    | AlreadyInitialized          // the one-time initialization guard was already used
    | CollectionReferenceNotFound // the collection slot is empty
    | CorruptState                // a storage slot is too short for the value read from it
    | RemoteCallFailed(reason: string)
    | UnknownOpcode(opcode: u128)
    | MissingInput

  datatype Result<T> = Ok(value: T) | Err(error: Error)

  /** A read-only call into another contract: descriptor, transfers sent along, fuel. */
  type StaticCall = (Cellpack, seq<AlkaneTransfer>, nat) -> Result<CallResponse>

  /** `CallResponse::forward`: pass the incoming transfers on, with empty data. */
  function Forward(incoming: seq<AlkaneTransfer>): (r: CallResponse)
    ensures r.alkanes == incoming && r.data == []
  {
    CallResponse(incoming, [])
  }
}
