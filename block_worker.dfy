/** The block validation worker: the ordered checks a candidate block must
    pass against its parent, the replay of its transactions and the
    receipts it produces. */
module BlockWorker {
  import opened Types

  /** What the transaction executor reports for one applied transaction. */
  datatype Execution = Execution(gas: U64, failed: bool, contractAddress: Address)

  /** The worker's collaborators, each taken as an uninterpreted function:
      the chain's block lookup, the hashes and merkle root of the validator
      library, the bloom builder, sender recovery, the executor (its answer
      for the transaction at a given index of the block), the chain's
      intermediate root once the first n transactions are applied, and the
      logs the chain recorded for a transaction hash. */
  datatype Env = Env(
    blockByHash: Hash -> Option<Block>,
    txHash: Transaction -> Hash,
    headerHash: Block -> Hash,
    headerDigest: Header -> Hash,
    receiptHash: Receipt -> Hash,
    merkleRoot: seq<Hash> -> Hash,
    createBloom: seq<Receipt> -> Bloom,
    sender: (Signer, Transaction) -> Option<Address>,
    apply: (Address, Header, nat, Transaction) -> Result<Execution, Error>,
    rootAfter: nat -> Hash,
    logsOf: Hash -> seq<Log>)

  // ---------------------------------------------------------------------
  // Transaction root

  /** The hashes of the transactions, in transaction order. */
  function TxHashes(env: Env, txs: seq<Transaction>): seq<Hash>
    decreases |txs|
  {
    if txs == [] then [] else TxHashes(env, txs[..|txs| - 1]) + [env.txHash(txs[|txs| - 1])]
  }

  /** One leaf per transaction, the k-th leaf being the k-th transaction's hash. */
  lemma {:induction false} TxHashesAt(env: Env, txs: seq<Transaction>)
    ensures |TxHashes(env, txs)| == |txs|
    ensures forall k :: 0 <= k < |txs| ==> TxHashes(env, txs)[k] == env.txHash(txs[k])
    decreases |txs|
  {
    if txs != [] {
      TxHashesAt(env, txs[..|txs| - 1]);
    }
  }

  function TxsRoot(env: Env, txs: seq<Transaction>): Hash
  {
    env.merkleRoot(TxHashes(env, txs))
  }

  /** GetTxsRoot: the merkle root of the transaction hashes, in order. */
  method GetTxsRoot(env: Env, txs: seq<Transaction>) returns (root: Hash)
    ensures root == env.merkleRoot(TxHashes(env, txs))
  {
    var txHash: seq<Hash> := [];
    var i := 0;
    while i < |txs|
      invariant 0 <= i <= |txs|
      invariant txHash == TxHashes(env, txs[..i])
    {
      assert txs[..i + 1][..i] == txs[..i];
      txHash := txHash + [env.txHash(txs[i])];
      i := i + 1;
    }
    assert txs[..|txs|] == txs;
    root := env.merkleRoot(txHash);
  }

  // ---------------------------------------------------------------------
  // Signature check

  /** The three ways the source's signature check can end. */
  datatype SignatureCheck = SignaturePassed | SignatureRejected | NilFromDereference

  /** VerifyTrsSignature as written: it dereferences the declared sender
      without checking it, so a nil From crashes once recovery succeeds. */
  function VerifyTrsSignatureAsWritten(env: Env, tx: Transaction): (r: SignatureCheck)
    ensures r == NilFromDereference <==> env.sender(FrontierSigner, tx).Some? && tx.data.from.None?
    ensures r == SignaturePassed <==> env.sender(FrontierSigner, tx).Some? && tx.data.from == env.sender(FrontierSigner, tx)
  {
    match env.sender(FrontierSigner, tx)
    case None => SignatureRejected
    case Some(signed) =>
      match tx.data.from
      case None => NilFromDereference
      case Some(declared) => if declared == signed then SignaturePassed else SignatureRejected
  }

  /** A transaction without a declared sender whose signature recovers
      makes the check as written dereference nil. */
  lemma NilFromCrashesCheck(env: Env, tx: Transaction)
    requires env.sender(FrontierSigner, tx).Some?
    requires tx.data.from.None?
    ensures VerifyTrsSignatureAsWritten(env, tx) == NilFromDereference
  {
  }

  /** VerifyTrsSignature, corrected: the signature is good exactly when the
      Frontier signer recovers a sender and the declared From is that
      sender byte for byte; a nil From is a bad signature. */
  function VerifyTrsSignature(env: Env, tx: Transaction): (ok: bool)
    ensures ok <==> (env.sender(FrontierSigner, tx).Some? && tx.data.from == env.sender(FrontierSigner, tx))
    ensures tx.data.from.Some? ==> (ok <==> VerifyTrsSignatureAsWritten(env, tx) == SignaturePassed)
  {
    match env.sender(FrontierSigner, tx)
    case None => false
    case Some(signed) => tx.data.from == Some(signed)
  }

  // ---------------------------------------------------------------------
  // One transaction

  /** The receipt, the gas and the new value of the caller's gas counter. */
  datatype Applied = Applied(receipt: Receipt, gas: U64, usedGas: U64)

  /** common.NewReceipt: post state, status and cumulative gas; every other
      field at its zero value. */
  function NewReceipt(root: Hash, failed: bool, cumulativeGasUsed: U64): Receipt
  {
    Receipt(root, failed, cumulativeGasUsed, [], [], ZeroHash, ZeroAddress, 0)
  }

  /** What a successful VerifyTransaction promises about its receipt, given
      the executor's report x and the caller's counter before the call. */
  predicate AppliedFrom(env: Env, author: Address, header: Header, index: nat, tx: Transaction,
                        usedGas: U64, x: Execution, a: Applied)
  {
    && a.gas == x.gas
    && a.receipt.gasUsed == x.gas
    && a.usedGas == AddU64(usedGas, x.gas)
    && a.receipt.cumulativeGasUsed == a.usedGas
    && a.receipt.failed == x.failed
    && a.receipt.txHash == env.txHash(tx)
    && a.receipt.logs == env.logsOf(env.txHash(tx))
    && a.receipt.postState == env.rootAfter(index + 1)
    // the created contract's address is recorded only for a contract creation
    && a.receipt.contractAddress == (if tx.data.recipient.None? then x.contractAddress else ZeroAddress)
  }

  /** VerifyTransaction: the signature check (when enabled), then the
      executor; `usedGas` is the counter the caller points to, and the
      result carries its new value. */
  function VerifyTransaction(env: Env, verifySignature: bool, author: Address, header: Header,
                             index: nat, tx: Transaction, usedGas: U64): (r: Result<Applied, Error>)
    // a bad signature fails before the executor is consulted
    ensures verifySignature && !VerifyTrsSignature(env, tx) ==> r == Failure(TxSignatureFailed)
    ensures (!verifySignature || VerifyTrsSignature(env, tx)) && env.apply(author, header, index, tx).Failure? ==>
              r == Failure(env.apply(author, header, index, tx).error)
    // a good signature (or none checked) and a successful executor give a receipt
    ensures r.Success? <==>
              (!verifySignature || VerifyTrsSignature(env, tx)) && env.apply(author, header, index, tx).Success?
    ensures r.Success? ==>
              AppliedFrom(env, author, header, index, tx, usedGas, env.apply(author, header, index, tx).value, r.value)
  {
    if verifySignature && !VerifyTrsSignature(env, tx) then
      Failure(TxSignatureFailed)
    else
      match env.apply(author, header, index, tx)
      case Failure(e) => Failure(e)
      case Success(x) =>
        var root := env.rootAfter(index + 1);
        var used := AddU64(usedGas, x.gas);
        var r0 := NewReceipt(root, x.failed, used).(txHash := env.txHash(tx), gasUsed := x.gas);
        var r1 := if tx.data.recipient.None? then r0.(contractAddress := x.contractAddress) else r0;
        var r2 := r1.(logs := env.logsOf(env.txHash(tx)));
        Success(Applied(r2.(bloom := env.createBloom([r2])), x.gas, used))
  }

  // ---------------------------------------------------------------------
  // Replay of a block's transactions

  /** What one transaction of the block contributes to the replay: its
      receipt, or its error. Every transaction gets a fresh gas counter. */
  function TxOutcome(env: Env, verifySignature: bool, header: Header, k: nat, tx: Transaction)
    : (o: Result<Receipt, Error>)
    ensures o.Success? <==> VerifyTransaction(env, verifySignature, header.coinBase, header, k, tx, 0).Success?
    ensures o.Success? ==> o.value == VerifyTransaction(env, verifySignature, header.coinBase, header, k, tx, 0).value.receipt
    ensures o.Failure? ==> o.error == VerifyTransaction(env, verifySignature, header.coinBase, header, k, tx, 0).error
  {
    match VerifyTransaction(env, verifySignature, header.coinBase, header, k, tx, 0)
    case Failure(e) => Failure(e)
    case Success(t) => Success(t.receipt)
  }

  /** The outcomes of the transactions, in block order. */
  function TxOutcomes(env: Env, verifySignature: bool, header: Header, txs: seq<Transaction>)
    : (os: seq<Result<Receipt, Error>>)
    ensures |os| == |txs|
    ensures forall k :: 0 <= k < |txs| ==> os[k] == TxOutcome(env, verifySignature, header, k, txs[k])
  {
    seq(|txs|, k requires 0 <= k < |txs| => TxOutcome(env, verifySignature, header, k, txs[k]))
  }

  /** Outcomes taken in order: all the receipts, or the first error. */
  function ReplayOf(os: seq<Result<Receipt, Error>>): Result<seq<Receipt>, Error>
    decreases |os|
  {
    if os == [] then Success([])
    else
      match ReplayOf(os[..|os| - 1])
      case Failure(e) => Failure(e)
      case Success(rs) =>
        match os[|os| - 1]
        case Failure(e) => Failure(e)
        case Success(r) => Success(rs + [r])
  }

  /** The replay succeeds exactly when every outcome does, and then gives
      the receipts in order. */
  lemma {:induction false} ReplayOfSucceeds(os: seq<Result<Receipt, Error>>)
    ensures ReplayOf(os).Success? <==> forall k :: 0 <= k < |os| ==> os[k].Success?
    ensures ReplayOf(os).Success? ==>
              && |ReplayOf(os).value| == |os|
              && forall k :: 0 <= k < |os| ==> ReplayOf(os).value[k] == os[k].value
    decreases |os|
  {
    if os != [] {
      var init := os[..|os| - 1];
      ReplayOfSucceeds(init);
      assert forall k :: 0 <= k < |init| ==> init[k] == os[k];
    }
  }

  /** Once a prefix fails, every longer prefix fails with the same error. */
  lemma {:induction false} ReplayOfFailurePersists(os: seq<Result<Receipt, Error>>, m: nat, n: nat)
    requires m <= n <= |os|
    requires ReplayOf(os[..m]).Failure?
    ensures ReplayOf(os[..n]) == ReplayOf(os[..m])
    decreases n
  {
    if m < n {
      ReplayOfFailurePersists(os, m, n - 1);
      assert os[..n][..n - 1] == os[..n - 1];
    }
  }

  /** One more outcome: a failure ends the replay, a receipt extends it. */
  lemma ReplayOfStep(os: seq<Result<Receipt, Error>>, i: nat, rs: seq<Receipt>)
    requires i < |os|
    requires ReplayOf(os[..i]) == Success(rs)
    ensures os[i].Failure? ==> ReplayOf(os[..i + 1]) == Failure(os[i].error)
    ensures os[i].Success? ==> ReplayOf(os[..i + 1]) == Success(rs + [os[i].value])
  {
    assert os[..i + 1][..i] == os[..i];
  }

  /** The replay of a block's transactions. */
  function Replay(env: Env, verifySignature: bool, header: Header, txs: seq<Transaction>)
    : Result<seq<Receipt>, Error>
  {
    ReplayOf(TxOutcomes(env, verifySignature, header, txs))
  }

  /** The replay succeeds exactly when every transaction does, and then the
      k-th receipt is the k-th transaction's. */
  lemma ReplaySucceeds(env: Env, vs: bool, header: Header, txs: seq<Transaction>)
    ensures Replay(env, vs, header, txs).Success? <==>
              forall k :: 0 <= k < |txs| ==> VerifyTransaction(env, vs, header.coinBase, header, k, txs[k], 0).Success?
    ensures Replay(env, vs, header, txs).Success? ==>
              && |Replay(env, vs, header, txs).value| == |txs|
              && forall k :: 0 <= k < |txs| ==>
                   Replay(env, vs, header, txs).value[k]
                   == VerifyTransaction(env, vs, header.coinBase, header, k, txs[k], 0).value.receipt
  {
    var os := TxOutcomes(env, vs, header, txs);
    ReplayOfSucceeds(os);
    assert forall k :: 0 <= k < |txs| ==> os[k] == TxOutcome(env, vs, header, k, txs[k]);
  }

  /** The first failing outcome ends the replay with its error. */
  lemma ReplayOfFirstFailure(os: seq<Result<Receipt, Error>>, j: nat)
    requires j < |os|
    requires forall k :: 0 <= k < j ==> os[k].Success?
    requires os[j].Failure?
    ensures ReplayOf(os) == Failure(os[j].error)
  {
    var init := os[..j];
    assert forall k :: 0 <= k < |init| ==> init[k] == os[k];
    ReplayOfSucceeds(init);
    ReplayOfStep(os, j, ReplayOf(init).value);
    ReplayOfFailurePersists(os, j + 1, |os|);
    assert os[..|os|] == os;
  }

  /** The first transaction that fails aborts the replay with its own error. */
  lemma ReplayFirstFailure(env: Env, vs: bool, header: Header, txs: seq<Transaction>, j: nat)
    requires j < |txs|
    requires forall k :: 0 <= k < j ==> VerifyTransaction(env, vs, header.coinBase, header, k, txs[k], 0).Success?
    requires VerifyTransaction(env, vs, header.coinBase, header, j, txs[j], 0).Failure?
    ensures Replay(env, vs, header, txs) == Failure(VerifyTransaction(env, vs, header.coinBase, header, j, txs[j], 0).error)
  {
    var os := TxOutcomes(env, vs, header, txs);
    assert forall k :: 0 <= k < j ==> os[k].Success? by {
      forall k | 0 <= k < j
        ensures os[k].Success?
      {
        assert os[k] == TxOutcome(env, vs, header, k, txs[k]);
      }
    }
    assert os[j] == TxOutcome(env, vs, header, j, txs[j]);
    ReplayOfFirstFailure(os, j);
  }

  /** Each transaction is given a fresh gas counter, so every receipt's
      cumulative gas is its own gas. */
  lemma ReplayGasIsPerTransaction(env: Env, vs: bool, header: Header, txs: seq<Transaction>)
    requires Replay(env, vs, header, txs).Success?
    ensures forall k :: 0 <= k < |Replay(env, vs, header, txs).value| ==>
              Replay(env, vs, header, txs).value[k].cumulativeGasUsed
              == Replay(env, vs, header, txs).value[k].gasUsed
  {
    ReplaySucceeds(env, vs, header, txs);
  }

  /** The logs of the receipts, concatenated in receipt order. */
  function AllLogs(rs: seq<Receipt>): seq<Log>
    decreases |rs|
  {
    if rs == [] then [] else AllLogs(rs[..|rs| - 1]) + rs[|rs| - 1].logs
  }

  lemma AllLogsAppend(rs: seq<Receipt>, r: Receipt)
    ensures AllLogs(rs + [r]) == AllLogs(rs) + r.logs
  {
    assert (rs + [r])[..|rs|] == rs;
  }

  /** The hashes of the receipts, in receipt order. */
  function ReceiptHashes(env: Env, rs: seq<Receipt>): seq<Hash>
    decreases |rs|
  {
    if rs == [] then [] else ReceiptHashes(env, rs[..|rs| - 1]) + [env.receiptHash(rs[|rs| - 1])]
  }

  lemma {:induction false} ReceiptHashesAt(env: Env, rs: seq<Receipt>)
    ensures |ReceiptHashes(env, rs)| == |rs|
    ensures forall k :: 0 <= k < |rs| ==> ReceiptHashes(env, rs)[k] == env.receiptHash(rs[k])
    decreases |rs|
  {
    if rs != [] {
      ReceiptHashesAt(env, rs[..|rs| - 1]);
    }
  }

  function ReceiptsRoot(env: Env, rs: seq<Receipt>): Hash
  {
    env.merkleRoot(ReceiptHashes(env, rs))
  }

  // ---------------------------------------------------------------------
  // The whole block

  /** The height a child of a block at height h must have (uint64 addition). */
  function NextHeight(h: U64): U64
  {
    AddU64(h, 1)
  }

  /** The chain linkage between a block and its parent. */
  predicate LinkedTo(b: Block, parent: Block)
  {
    && b.header.chainId == parent.header.chainId
    && b.header.prevBlockHash == parent.headerHash
    && b.header.height == NextHeight(parent.header.height)
  }

  /** The checks against the parent, in their order: it must exist, and
      the chain id, the previous hash and the height must follow from it. */
  function CheckLinkage(env: Env, b: Block): Option<Error>
  {
    var h := b.header;
    match env.blockByHash(h.prevBlockHash)
    case None => Some(PreviousBlockMissing)
    case Some(p) =>
      if h.chainId != p.header.chainId then
        Some(ChainIdMismatch(p.header.chainId, h.chainId))
      else if h.prevBlockHash != p.headerHash then
        Some(PrevBlockHashMismatch(p.headerHash, h.prevBlockHash))
      else if h.height != NextHeight(p.header.height) then
        Some(HeightMismatch(NextHeight(p.header.height), h.height))
      else
        None
  }

  /** The checks of the block's own hashes: the transaction root, then the
      header hash unless it is the zero sentinel. */
  function CheckHashes(env: Env, b: Block): Option<Error>
  {
    if b.header.txRoot != TxsRoot(env, b.transactions) then
      Some(TxRootMismatch(TxsRoot(env, b.transactions), b.header.txRoot))
    else if !IsZeroHash(b.headerHash) && b.headerHash != env.headerHash(b) then
      Some(HeaderHashMismatch(env.headerHash(b), b.headerHash))
    else
      None
  }

  /** The checks VerifyBlock runs before any transaction is replayed. */
  function CheckHeader(env: Env, b: Block): Option<Error>
  {
    if CheckLinkage(env, b).Some? then CheckLinkage(env, b) else CheckHashes(env, b)
  }

  /** The block after the receipts-root step: a zero ReceiptsRoot is
      replaced by the computed root, any other is kept. */
  function AssignReceiptsRoot(b: Block, root: Hash): Block
  {
    if IsZeroHash(b.header.receiptsRoot) then b.(header := b.header.(receiptsRoot := root)) else b
  }

  datatype Replayed = Replayed(receipts: seq<Receipt>, logs: seq<Log>)

  /** The block as the worker leaves it, and the verdict. */
  datatype Outcome = Outcome(block: Block, result: Result<Replayed, Error>)

  /** The checks after a successful replay with receipts rs: receipts root
      (assigned when zero, compared otherwise), state root, digest of the
      header as it stands after the assignment. */
  function CheckResults(env: Env, b: Block, rs: seq<Receipt>): Outcome
  {
    var root := ReceiptsRoot(env, rs);
    if !IsZeroHash(b.header.receiptsRoot) && root != b.header.receiptsRoot then
      Outcome(b, Failure(ReceiptsRootInconsistent))
    else
      var b' := AssignReceiptsRoot(b, root);
      if b'.header.stateRoot != env.rootAfter(|b.transactions|) then
        Outcome(b', Failure(StateRootInconsistent))
      else if !IsZeroHash(b'.header.mixDigest) && env.headerDigest(b'.header) != b'.header.mixDigest then
        Outcome(b', Failure(DigestInconsistent))
      else
        Outcome(b', Success(Replayed(rs, AllLogs(rs))))
  }

  /** The outcome of VerifyBlock once the replay's outcome is known. */
  function OutcomeOf(env: Env, b: Block, replay: Result<seq<Receipt>, Error>): Outcome
  {
    match CheckHeader(env, b)
    case Some(e) => Outcome(b, Failure(e))
    case None =>
      match replay
      case Failure(e) => Outcome(b, Failure(e))
      case Success(rs) => CheckResults(env, b, rs)
  }

  /** VerifyBlock as one function of the collaborators and the candidate. */
  function VerifyBlockSpec(env: Env, verifySignature: bool, b: Block): Outcome
  {
    OutcomeOf(env, b, Replay(env, verifySignature, b.header, b.transactions))
  }

  /** What an accepted block satisfies, whatever receipts the replay gave. */
  lemma OutcomeAccepted(env: Env, b: Block, rs: seq<Receipt>)
    requires OutcomeOf(env, b, Success(rs)).result.Success?
    ensures env.blockByHash(b.header.prevBlockHash).Some?
    ensures LinkedTo(b, env.blockByHash(b.header.prevBlockHash).value)
    ensures b.header.txRoot == TxsRoot(env, b.transactions)
    ensures IsZeroHash(b.headerHash) || b.headerHash == env.headerHash(b)
    ensures b.header.stateRoot == env.rootAfter(|b.transactions|)
    ensures IsZeroHash(b.header.mixDigest)
            || env.headerDigest(OutcomeOf(env, b, Success(rs)).block.header) == b.header.mixDigest
    ensures OutcomeOf(env, b, Success(rs)).result.value == Replayed(rs, AllLogs(rs))
    ensures OutcomeOf(env, b, Success(rs)).block.header.receiptsRoot == ReceiptsRoot(env, rs)
  {
  }

  /** An accepted block is linked to its parent, its roots and hashes agree
      with the collaborators', it has one receipt per transaction (the k-th
      being the k-th transaction's), its logs are the receipts' logs in
      order, and its ReceiptsRoot is the root of those receipts. */
  lemma VerifyBlockAccepted(env: Env, vs: bool, b: Block)
    requires VerifyBlockSpec(env, vs, b).result.Success?
    ensures env.blockByHash(b.header.prevBlockHash).Some?
    ensures LinkedTo(b, env.blockByHash(b.header.prevBlockHash).value)
    ensures b.header.txRoot == TxsRoot(env, b.transactions)
    ensures IsZeroHash(b.headerHash) || b.headerHash == env.headerHash(b)
    ensures b.header.stateRoot == env.rootAfter(|b.transactions|)
    ensures IsZeroHash(b.header.mixDigest)
            || env.headerDigest(VerifyBlockSpec(env, vs, b).block.header) == b.header.mixDigest
    ensures var rs := VerifyBlockSpec(env, vs, b).result.value.receipts;
            && |rs| == |b.transactions|
            && (forall k :: 0 <= k < |rs| ==>
                  && VerifyTransaction(env, vs, b.header.coinBase, b.header, k, b.transactions[k], 0).Success?
                  && rs[k] == VerifyTransaction(env, vs, b.header.coinBase, b.header, k, b.transactions[k], 0).value.receipt)
            && VerifyBlockSpec(env, vs, b).result.value.logs == AllLogs(rs)
            && VerifyBlockSpec(env, vs, b).block.header.receiptsRoot == ReceiptsRoot(env, rs)
  {
    var replay := Replay(env, vs, b.header, b.transactions);
    assert replay.Success?;
    OutcomeAccepted(env, b, replay.value);
    ReplaySucceeds(env, vs, b.header, b.transactions);
  }

  /** The only field VerifyBlock may change is ReceiptsRoot, and only when
      it was the zero hash. */
  lemma OutcomeMutatesOnlyReceiptsRoot(env: Env, b: Block, replay: Result<seq<Receipt>, Error>)
    ensures OutcomeOf(env, b, replay).block.transactions == b.transactions
    ensures OutcomeOf(env, b, replay).block.headerHash == b.headerHash
    ensures OutcomeOf(env, b, replay).block.header == b.header
            || (&& IsZeroHash(b.header.receiptsRoot)
                && OutcomeOf(env, b, replay).block.header
                   == b.header.(receiptsRoot := OutcomeOf(env, b, replay).block.header.receiptsRoot))
  {
  }

  // ---------------------------------------------------------------------
  // The checks as an ordered list: the first failing one decides

  datatype Stage =
    | ParentStage | ChainIdStage | PrevHashStage | HeightStage | TxRootStage | HeaderHashStage
    | ReplayStage | ReceiptsRootStage | StateRootStage | DigestStage

  /** The order in which VerifyBlock runs its checks. */
  const LinkageStages: seq<Stage> := [ParentStage, ChainIdStage, PrevHashStage, HeightStage]
  const HashStages: seq<Stage> := [TxRootStage, HeaderHashStage]
  const HeaderStages: seq<Stage> := LinkageStages + HashStages
  const ResultStages: seq<Stage> := [ReceiptsRootStage, StateRootStage, DigestStage]
  const Stages: seq<Stage> := HeaderStages + [ReplayStage] + ResultStages

  /** Each check on its own, given the outcome of the replay: the error it
      reports, or None when it passes (or when what it compares against is
      not there). */
  function StageError(env: Env, b: Block, replay: Result<seq<Receipt>, Error>, s: Stage): Option<Error>
  {
    var h := b.header;
    var parent := env.blockByHash(h.prevBlockHash);
    match s
    case ParentStage =>
      if parent.None? then Some(PreviousBlockMissing) else None
    case ChainIdStage =>
      if parent.Some? && h.chainId != parent.value.header.chainId
      then Some(ChainIdMismatch(parent.value.header.chainId, h.chainId)) else None
    case PrevHashStage =>
      if parent.Some? && h.prevBlockHash != parent.value.headerHash
      then Some(PrevBlockHashMismatch(parent.value.headerHash, h.prevBlockHash)) else None
    case HeightStage =>
      if parent.Some? && h.height != NextHeight(parent.value.header.height)
      then Some(HeightMismatch(NextHeight(parent.value.header.height), h.height)) else None
    case TxRootStage =>
      if h.txRoot != TxsRoot(env, b.transactions)
      then Some(TxRootMismatch(TxsRoot(env, b.transactions), h.txRoot)) else None
    case HeaderHashStage =>
      if !IsZeroHash(b.headerHash) && b.headerHash != env.headerHash(b)
      then Some(HeaderHashMismatch(env.headerHash(b), b.headerHash)) else None
    case ReplayStage =>
      if replay.Failure? then Some(replay.error) else None
    case ReceiptsRootStage =>
      if replay.Success? && !IsZeroHash(h.receiptsRoot) && ReceiptsRoot(env, replay.value) != h.receiptsRoot
      then Some(ReceiptsRootInconsistent) else None
    case StateRootStage =>
      if h.stateRoot != env.rootAfter(|b.transactions|) then Some(StateRootInconsistent) else None
    case DigestStage =>
      if replay.Success? && !IsZeroHash(h.mixDigest)
         && env.headerDigest(AssignReceiptsRoot(b, ReceiptsRoot(env, replay.value)).header) != h.mixDigest
      then Some(DigestInconsistent) else None
  }

  /** The error of the first failing check in the list. */
  function FirstFailure(env: Env, b: Block, replay: Result<seq<Receipt>, Error>, ss: seq<Stage>): Option<Error>
    decreases |ss|
  {
    if ss == [] then None
    else if StageError(env, b, replay, ss[0]).Some? then StageError(env, b, replay, ss[0])
    else FirstFailure(env, b, replay, ss[1..])
  }

  /** No error is reported exactly when every check in the list passes. */
  lemma {:induction false} FirstFailureNone(env: Env, b: Block, replay: Result<seq<Receipt>, Error>, ss: seq<Stage>)
    ensures FirstFailure(env, b, replay, ss).None? <==>
              forall k :: 0 <= k < |ss| ==> StageError(env, b, replay, ss[k]).None?
    decreases |ss|
  {
    if ss != [] {
      FirstFailureNone(env, b, replay, ss[1..]);
      assert forall k :: 1 <= k < |ss| ==> ss[k] == ss[1..][k - 1];
    }
  }

  /** Running two lists of checks one after the other: the first list's
      failure wins, otherwise the second list decides. */
  lemma {:induction false} FirstFailureAppend(env: Env, b: Block, replay: Result<seq<Receipt>, Error>,
                                              ss1: seq<Stage>, ss2: seq<Stage>)
    ensures FirstFailure(env, b, replay, ss1 + ss2)
            == if FirstFailure(env, b, replay, ss1).Some? then FirstFailure(env, b, replay, ss1)
               else FirstFailure(env, b, replay, ss2)
    decreases |ss1|
  {
    if ss1 == [] {
      assert ss1 + ss2 == ss2;
    } else {
      assert (ss1 + ss2)[0] == ss1[0];
      assert (ss1 + ss2)[1..] == ss1[1..] + ss2;
      FirstFailureAppend(env, b, replay, ss1[1..], ss2);
    }
  }

  /** The parent checks are the first four stages, in order. */
  lemma LinkageChecksInOrder(env: Env, b: Block, replay: Result<seq<Receipt>, Error>)
    ensures CheckLinkage(env, b) == FirstFailure(env, b, replay, LinkageStages)
  {
    var s := LinkageStages;
    assert s[1..] == [ChainIdStage, PrevHashStage, HeightStage];
    assert s[1..][1..] == [PrevHashStage, HeightStage];
    assert s[1..][1..][1..] == [HeightStage];
    assert s[1..][1..][1..][1..] == [];
  }

  /** The hash checks are the next two stages, in order. */
  lemma HashChecksInOrder(env: Env, b: Block, replay: Result<seq<Receipt>, Error>)
    ensures CheckHashes(env, b) == FirstFailure(env, b, replay, HashStages)
  {
    var s := HashStages;
    assert s[1..] == [HeaderHashStage];
    assert s[1..][1..] == [];
  }

  /** The checks before the replay are the first six stages, in order. */
  lemma HeaderChecksInOrder(env: Env, b: Block, replay: Result<seq<Receipt>, Error>)
    ensures CheckHeader(env, b) == FirstFailure(env, b, replay, HeaderStages)
  {
    LinkageChecksInOrder(env, b, replay);
    HashChecksInOrder(env, b, replay);
    FirstFailureAppend(env, b, replay, LinkageStages, HashStages);
  }

  /** After a successful replay, the last three stages decide, in order. */
  lemma ResultChecksInOrder(env: Env, b: Block, rs: seq<Receipt>)
    ensures var o := CheckResults(env, b, rs);
            && (o.result.Success? <==> FirstFailure(env, b, Success(rs), ResultStages).None?)
            && (o.result.Failure? ==> FirstFailure(env, b, Success(rs), ResultStages) == Some(o.result.error))
  {
    var s := ResultStages;
    assert s[1..] == [StateRootStage, DigestStage];
    assert s[1..][1..] == [DigestStage];
    assert s[1..][1..][1..] == [];
  }

  /** Whatever the replay gave, the outcome is the first failing check's
      error, and success exactly when none fails. */
  lemma OutcomeIsFirstFailure(env: Env, b: Block, replay: Result<seq<Receipt>, Error>)
    ensures OutcomeOf(env, b, replay).result.Success? <==> FirstFailure(env, b, replay, Stages).None?
    ensures OutcomeOf(env, b, replay).result.Failure? ==>
              FirstFailure(env, b, replay, Stages) == Some(OutcomeOf(env, b, replay).result.error)
  {
    HeaderChecksInOrder(env, b, replay);
    FirstFailureAppend(env, b, replay, HeaderStages + [ReplayStage], ResultStages);
    FirstFailureAppend(env, b, replay, HeaderStages, [ReplayStage]);
    assert [ReplayStage][1..] == [];
    if replay.Success? {
      ResultChecksInOrder(env, b, replay.value);
    }
  }

  /** VerifyBlock reports the error of the first failing check, in the
      order parent, chain id, previous hash, height, tx root, header hash,
      replay, receipts root, state root, digest, and accepts exactly when
      every one of them passes. */
  lemma VerifyBlockIsFirstFailure(env: Env, vs: bool, b: Block)
    ensures var replay := Replay(env, vs, b.header, b.transactions);
            && (VerifyBlockSpec(env, vs, b).result.Success? <==> FirstFailure(env, b, replay, Stages).None?)
            && (VerifyBlockSpec(env, vs, b).result.Success? <==>
                  forall k :: 0 <= k < |Stages| ==> StageError(env, b, replay, Stages[k]).None?)
            && (VerifyBlockSpec(env, vs, b).result.Failure? ==>
                  FirstFailure(env, b, replay, Stages) == Some(VerifyBlockSpec(env, vs, b).result.error))
  {
    var replay := Replay(env, vs, b.header, b.transactions);
    OutcomeIsFirstFailure(env, b, replay);
    FirstFailureNone(env, b, replay, Stages);
  }

  /** The replay loop of VerifyBlock: each transaction in order with a
      fresh gas counter, stopping at the first error; on success also the
      logs of the receipts, concatenated. */
  method ReplayTransactions(env: Env, verifySignature: bool, header: Header, txs: seq<Transaction>)
    returns (r: Result<seq<Receipt>, Error>, allLogs: seq<Log>)
    ensures r == Replay(env, verifySignature, header, txs)
    ensures r.Success? ==> allLogs == AllLogs(r.value)
  {
    ghost var os := TxOutcomes(env, verifySignature, header, txs);
    var rs: seq<Receipt> := [];
    allLogs := [];
    var i := 0;
    while i < |txs|
      invariant 0 <= i <= |txs|
      invariant ReplayOf(os[..i]) == Success(rs)
      invariant allLogs == AllLogs(rs)
    {
      var applied := VerifyTransaction(env, verifySignature, header.coinBase, header, i, txs[i], 0);
      assert os[i] == TxOutcome(env, verifySignature, header, i, txs[i]);
      ReplayOfStep(os, i, rs);
      if applied.Failure? {
        ReplayOfFailurePersists(os, i + 1, |os|);
        assert os[..|os|] == os;
        return Failure(applied.error), allLogs;
      }
      var receipt := applied.value.receipt;
      AllLogsAppend(rs, receipt);
      rs := rs + [receipt];
      allLogs := allLogs + receipt.logs;
      i := i + 1;
    }
    assert os[..|os|] == os;
    r := Success(rs);
  }

  /** The receipts-root loop of VerifyBlock: the merkle root of the receipt
      hashes, in order. */
  method GetReceiptsRoot(env: Env, rs: seq<Receipt>) returns (root: Hash)
    ensures root == env.merkleRoot(ReceiptHashes(env, rs))
  {
    var receiptsHash: seq<Hash> := [];
    var j := 0;
    while j < |rs|
      invariant 0 <= j <= |rs|
      invariant receiptsHash == ReceiptHashes(env, rs[..j])
    {
      assert rs[..j + 1][..j] == rs[..j];
      receiptsHash := receiptsHash + [env.receiptHash(rs[j])];
      j := j + 1;
    }
    assert rs[..|rs|] == rs;
    root := env.merkleRoot(receiptsHash);
  }

  // ---------------------------------------------------------------------
  // The worker object

  class Worker {
    var block: Block
    const env: Env
    var receipts: seq<Receipt>
    var logs: seq<Log>
    const verifySignature: bool

    /** NewWorker: a worker for one candidate block, no receipts yet. */
    constructor (env: Env, block: Block, verifySignature: bool)
      ensures this.env == env && this.block == block && this.verifySignature == verifySignature
      ensures receipts == [] && logs == []
    {
      this.env := env;
      this.block := block;
      this.verifySignature := verifySignature;
      receipts := [];
      logs := [];
    }

    /** GetReceipts: the receipts the last successful VerifyBlock kept. */
    function GetReceipts(): (r: seq<Receipt>)
      reads this
      ensures r == receipts
    {
      receipts
    }

    /** VerifyBlock: runs the checks against the parent in order, returns
      the first error, and keeps the receipts and logs only on success. */
    method VerifyBlock() returns (err: Option<Error>)
      modifies this
      ensures block == VerifyBlockSpec(env, verifySignature, old(block)).block
      ensures VerifyBlockSpec(env, verifySignature, old(block)).result.Failure? ==>
                && err == Some(VerifyBlockSpec(env, verifySignature, old(block)).result.error)
                && receipts == old(receipts) && logs == old(logs)
      ensures VerifyBlockSpec(env, verifySignature, old(block)).result.Success? ==>
                && err == None
                && receipts == VerifyBlockSpec(env, verifySignature, old(block)).result.value.receipts
                && logs == VerifyBlockSpec(env, verifySignature, old(block)).result.value.logs
    {
      // the parent and the chain linkage
      var previous := env.blockByHash(block.header.prevBlockHash);
      if previous.None? {
        return Some(PreviousBlockMissing);
      }
      var parent := previous.value;
      if block.header.chainId != parent.header.chainId {
        return Some(ChainIdMismatch(parent.header.chainId, block.header.chainId));
      }
      if block.header.prevBlockHash != parent.headerHash {
        return Some(PrevBlockHashMismatch(parent.headerHash, block.header.prevBlockHash));
      }
      if block.header.height != AddU64(parent.header.height, 1) {
        return Some(HeightMismatch(AddU64(parent.header.height, 1), block.header.height));
      }
      // the transaction root and the header hash
      var txsHash := GetTxsRoot(env, block.transactions);
      if block.header.txRoot != txsHash {
        return Some(TxRootMismatch(txsHash, block.header.txRoot));
      }
      if !IsZeroHash(block.headerHash) {
        var headerHash := env.headerHash(block);
        if block.headerHash != headerHash {
          return Some(HeaderHashMismatch(headerHash, block.headerHash));
        }
      }
      assert CheckHeader(env, block) == None;
      // replay every transaction, each with a fresh gas counter
      var replayed, allLogs := ReplayTransactions(env, verifySignature, block.header, block.transactions);
      if replayed.Failure? {
        return Some(replayed.error);
      }
      var rs := replayed.value;
      ghost var spec := CheckResults(env, block, rs);
      assert VerifyBlockSpec(env, verifySignature, old(block)) == spec;
      // the receipts root: assigned when zero, compared otherwise
      var receiptHash := GetReceiptsRoot(env, rs);
      if !IsZeroHash(block.header.receiptsRoot) {
        if receiptHash != block.header.receiptsRoot {
          return Some(ReceiptsRootInconsistent);
        }
      } else {
        block := block.(header := block.header.(receiptsRoot := receiptHash));
      }
      assert block == spec.block;
      // the state root and the digest
      var stateRoot := env.rootAfter(|block.transactions|);
      if block.header.stateRoot != stateRoot {
        return Some(StateRootInconsistent);
      }
      if !IsZeroHash(block.header.mixDigest) {
        var digestHash := env.headerDigest(block.header);
        if digestHash != block.header.mixDigest {
          return Some(DigestInconsistent);
        }
      }
      receipts := rs;
      logs := allLogs;
      return None;
    }
  }
}
