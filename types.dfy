/** Values shared by the switch, its ports and its filters: fixed-width hashes
    and addresses, unsigned 64-bit integers, blocks, transactions, receipts,
    the messages that travel through the switch and the errors its filters
    return. */
module Types {

  datatype Option<+T> = None | Some(value: T)

  datatype Result<+R, +E> = Success(value: R) | Failure(error: E)

  type Byte = bv8

  /** A 32-byte hash (types.Hash). */
  type Hash = s: seq<Byte> | |s| == 32 witness [0, 0, 0, 0, 0, 0, 0, 0, 0, 0, 0, 0, 0, 0, 0, 0, 0, 0, 0, 0, 0, 0, 0, 0, 0, 0, 0, 0, 0, 0, 0, 0]

  /** A 20-byte account address (types.Address). */
  type Address = s: seq<Byte> | |s| == 20 witness [0, 0, 0, 0, 0, 0, 0, 0, 0, 0, 0, 0, 0, 0, 0, 0, 0, 0, 0, 0]

  /** The all-zero hash: the "not yet assigned" sentinel of HeaderHash,
      ReceiptsRoot and MixDigest. */
  const ZeroHash: Hash :=
    [0, 0, 0, 0, 0, 0, 0, 0, 0, 0, 0, 0, 0, 0, 0, 0, 0, 0, 0, 0, 0, 0, 0, 0, 0, 0, 0, 0, 0, 0, 0, 0]

  /** The sentinel test of the worker (bytes.Equal against a zero hash):
      every byte of h is zero. */
  predicate IsZeroHash(h: Hash)
  {
    forall i :: 0 <= i < |h| ==> h[i] == 0
  }

  /** The all-zero address, the value of an address field never assigned. */
  const ZeroAddress: Address :=
    [0, 0, 0, 0, 0, 0, 0, 0, 0, 0, 0, 0, 0, 0, 0, 0, 0, 0, 0, 0]

  const U64Modulus: int := 0x1_0000_0000_0000_0000

  type U64 = x: int | 0 <= x < 0x1_0000_0000_0000_0000

  /** Unsigned 64-bit addition, wrapping around as Go's uint64 does. */
  function AddU64(a: U64, b: U64): (r: U64)
    ensures a + b < U64Modulus ==> r == a + b
    ensures a + b >= U64Modulus ==> r == a + b - U64Modulus
  {
    (a + b) % U64Modulus
  }

  /** The logs bloom filter of a receipt. */
  type Bloom = seq<Byte>

  datatype TxData = TxData(
    accountNonce: U64,
    price: nat,
    gasLimit: U64,
    recipient: Option<Address>,   // nil for a contract creation
    from: Option<Address>,        // the declared sender, a pointer that may be nil
    amount: nat,
    payload: seq<Byte>,
    v: nat, r: nat, s: nat)

  /** A transaction as a value; the memo slot for its hash is modelled by
      FilterCommon.TransactionRef. */
  datatype Transaction = Transaction(data: TxData)

  datatype Header = Header(
    chainId: U64,
    prevBlockHash: Hash,
    stateRoot: Hash,
    txRoot: Hash,
    receiptsRoot: Hash,
    height: U64,
    timestamp: U64,
    mixDigest: Hash,
    coinBase: Address)

  datatype Block = Block(header: Header, transactions: seq<Transaction>, headerHash: Hash)

  datatype Log = Log(address: Address, topics: seq<Hash>, data: seq<Byte>)

  datatype Receipt = Receipt(
    postState: Hash,
    failed: bool,
    cumulativeGasUsed: U64,
    bloom: Bloom,
    logs: seq<Log>,
    txHash: Hash,
    contractAddress: Address,
    gasUsed: U64)

  /** What arrives on an in-port: the switch treats it opaquely, only the
      filters look at the variant. */
  datatype Message =
    | TxMessage(tx: Transaction)
    | BlockMessage(block: Block)
    | OtherMessage(payload: seq<Byte>)

  /** The signer scheme used to recover a transaction's sender. */
  datatype Signer = FrontierSigner | EIP155Signer(chainId: int)

  /** The errors of the filters, the worker and the switch. */
  datatype Error =
    // Worker.VerifyBlock
    | PreviousBlockMissing
    | ChainIdMismatch(expectedChainId: U64, gotChainId: U64)
    | PrevBlockHashMismatch(expectedPrev: Hash, gotPrev: Hash)
    | HeightMismatch(expectedHeight: U64, gotHeight: U64)
    | TxRootMismatch(expectedTxRoot: Hash, gotTxRoot: Hash)
    | HeaderHashMismatch(expectedHeaderHash: Hash, gotHeaderHash: Hash)
    | TxSignatureFailed
    | ExecutionFailed(executorCode: nat)          // an error the transaction executor reports
    | ReceiptsRootInconsistent
    | StateRootInconsistent
    | DigestInconsistent
    // BlockFilter.Verify
    | InvalidBlockMessage
    | BlockHeaderHashInvalid(computed: Hash, declared: Hash)
    | PreviousStateMissing
    // TxFilter.Verify
    | UnsupportedMessageType
    | SenderRecoveryFailed
    | SignatureVerifyFailed
    // the switch
    | UnsupportedSwitchType
    | SwitchAlreadyStarted
    | SwitchAlreadyStopped
    // what an out-port subscriber may answer
    | SubscriberFailed(subscriberCode: nat)
}
