/** The values the batch handler works on: node identities, the partially
    signed transaction (BIP 174 PSBT), the protocol message, the outcome of one
    received event, and the collaborators the handler calls. */
module BatchTypes {
  import opened Shuffle

  type uint8 = x: int | 0 <= x < 0x100
  type uint32 = x: int | 0 <= x < 0x1_0000_0000
  type uint64 = x: int | 0 <= x < 0x1_0000_0000_0000_0000

  type Bytes = seq<uint8>

  /** A node's serialized public key; the handler only compares them. */
  type NodeId = Bytes

  datatype Option<T> = None | Some(value: T)

  /** Every place where the handler unwraps a value that may be absent. */
  datatype HandlerError =
    | MalformedPsbt   // hex decoding or PSBT deserialization failed
    | FundingFailed   // the wallet could not add this node's inputs and outputs
    | NoLastHop       // the path stack was empty when its top was read
    | NoNextPeer      // no open channel qualified as the next hop
    | SigningFailed   // the wallet could not sign
    | StorageFailed   // the wallet could not store the finished PSBT

  datatype Result<T> = Ok(value: T) | Err(error: HandlerError)

  /** One input of the unsigned transaction. */
  datatype TxIn = TxIn(previousOutput: Bytes, scriptSig: Bytes, sequence: uint32, witnessStack: seq<Bytes>)

  /** One output of the unsigned transaction. */
  datatype TxOut = TxOut(value: uint64, scriptPubKey: Bytes)

  datatype Transaction = Transaction(version: int, lockTime: uint32, input: seq<TxIn>, output: seq<TxOut>)

  /** A BIP 174 key-value map. */
  type KeyValueMap = map<Bytes, Bytes>

  /** PSBT metadata of one input (UTXO, partial signatures, ...). */
  datatype PsbtInput = PsbtInput(fields: KeyValueMap)

  /** PSBT metadata of one output. */
  datatype PsbtOutput = PsbtOutput(fields: KeyValueMap)

  /** The PSBT: `inputs[i]` describes `unsignedTx.input[i]` and `outputs[i]`
      describes `unsignedTx.output[i]`. */
  datatype Psbt = Psbt(unsignedTx: Transaction, globals: KeyValueMap, inputs: seq<PsbtInput>, outputs: seq<PsbtOutput>)

  /** The fields of a batch message, as received and as sent on. `hops` is a
      stack whose top is its last element; `sign` is false while
      participants are being collected and true while signatures are. */
  datatype BatchRequest = BatchRequest(
    uniformAmount: uint64,
    feePerParticipant: uint64,
    maxParticipants: uint8,
    participants: seq<NodeId>,
    hops: seq<NodeId>,
    psbtHex: string,
    sign: bool)

  /** A received batch message, with the receiving node and the sender. */
  datatype ReceivedEvent = ReceivedEvent(receiver: NodeId, prev: NodeId, request: BatchRequest)

  /** What handling one received message leads to. */
  datatype Outcome =
    | Forward(to: NodeId, request: BatchRequest)  // one message sent to one peer
    | Stored(psbtHex: string)                      // the finished PSBT handed to the wallet
    | NothingSent                                  // no peer to send to; the message stops here
    | Failed(error: HandlerError)                  // the handler stopped at an unwrap

  /** The wallet calls the handler makes; each may fail. */
  datatype Wallet = Wallet(
    addUtxos: (Psbt, nat, Option<uint64>, uint64, bool) -> Option<Psbt>,
    signPsbt: Psbt -> Option<Psbt>,
    pushToBatch: string -> bool)

  /** Hex and PSBT (de)serialization. */
  datatype Codec = Codec(decode: string -> Option<Psbt>, encode: Psbt -> string)

  /** The channel manager's view: the counterparties of the open channels in
      the order they are listed, and whether some channel with a given peer
      exists. */
  datatype ChannelManager = ChannelManager(openChannels: seq<NodeId>, hasChannelWith: NodeId -> bool)

  /** Everything the handler consults besides the message itself. */
  datatype NodeContext = NodeContext(channels: ChannelManager, wallet: Wallet, codec: Codec, rng: Rng)
}
