/** The block filter of a block switch: it accepts a block message when the
    block's header hash is right, the world state of its parent can be
    opened, and the validation worker run on that state accepts the block;
    every error it returns is also reported as a "block verify failed"
    event. */
module BlockFilters {
  import opened Types
  import opened Events
  import BlockWorker

  /** A handle on the chain opened at the state a block hash names
      (blockchain.NewBlockChainByBlockHash). */
  datatype Chain = Chain(stateHash: Hash)

  /** The collaborators of doValidate: the package's header hash, the
      opening of the parent's world state (None when it cannot be opened),
      and the validation worker run on that state (its error, or None). */
  datatype BlockDeps = BlockDeps(
    headerHash: Header -> Hash,
    stateAt: Hash -> Option<Chain>,
    runWorker: (Chain, Block) -> Option<Error>)

  /** doValidate: header hash first (compared even when the declared hash
      is zero), then the parent state, then the worker, whose error is
      passed through unchanged. */
  function DoValidate(d: BlockDeps, b: Block): (r: Option<Error>)
    ensures d.headerHash(b.header) != b.headerHash ==>
              r == Some(BlockHeaderHashInvalid(d.headerHash(b.header), b.headerHash))
    ensures d.headerHash(b.header) == b.headerHash && d.stateAt(b.header.prevBlockHash).None? ==>
              r == Some(PreviousStateMissing)
    ensures d.headerHash(b.header) == b.headerHash && d.stateAt(b.header.prevBlockHash).Some? ==>
              r == d.runWorker(d.stateAt(b.header.prevBlockHash).value, b)
  {
    var computed := d.headerHash(b.header);
    if computed != b.headerHash then
      Some(BlockHeaderHashInvalid(computed, b.headerHash))
    else
      match d.stateAt(b.header.prevBlockHash)
      case None => Some(PreviousStateMissing)
      case Some(chain) => d.runWorker(chain, b)
  }

  /** A block is accepted exactly when its header hash is right, its
      parent's state opens, and the worker accepts it there. */
  lemma DoValidateAccepts(d: BlockDeps, b: Block)
    ensures DoValidate(d, b).None? <==>
              && d.headerHash(b.header) == b.headerHash
              && d.stateAt(b.header.prevBlockHash).Some?
              && d.runWorker(d.stateAt(b.header.prevBlockHash).value, b).None?
  {
  }

  /** A header-hash mismatch is decided before the parent state is looked
      up: two setups that hash alike give the same verdict whatever their
      chains and workers do. */
  lemma HeaderMismatchIgnoresChain(d1: BlockDeps, d2: BlockDeps, b: Block)
    requires d1.headerHash == d2.headerHash
    requires d1.headerHash(b.header) != b.headerHash
    ensures DoValidate(d1, b) == DoValidate(d2, b)
  {
  }

  /** A parent state that cannot be opened is decided before any worker
      runs: the worker plays no part in the verdict. */
  lemma MissingStateIgnoresWorker(d1: BlockDeps, d2: BlockDeps, b: Block)
    requires d1.headerHash == d2.headerHash && d1.stateAt == d2.stateAt
    requires d1.stateAt(b.header.prevBlockHash).None?
    ensures DoValidate(d1, b) == DoValidate(d2, b) == (if d1.headerHash(b.header) == b.headerHash
                                                    then Some(PreviousStateMissing)
                                                    else Some(BlockHeaderHashInvalid(d1.headerHash(b.header), b.headerHash)))
  {
  }

  /** The worker of this package in the place of the validator worker:
      getValidateWorker builds it from the chain opened at the parent state
      and the candidate block, so the collaborators it sees (the executor,
      the intermediate roots, the logs) may depend on both. The worker
      accepts exactly when VerifyBlock does, and otherwise returns
      VerifyBlock's error. */
  function LocalWorker(envAt: (Chain, Block) -> BlockWorker.Env, verifySignature: bool)
    : (w: (Chain, Block) -> Option<Error>)
    ensures forall c: Chain, b: Block ::
              && (w(c, b).None? <==> BlockWorker.VerifyBlockSpec(envAt(c, b), verifySignature, b).result.Success?)
              && (w(c, b).Some? ==> w(c, b).value == BlockWorker.VerifyBlockSpec(envAt(c, b), verifySignature, b).result.error)
  {
    (c: Chain, b: Block) =>
      var o := BlockWorker.VerifyBlockSpec(envAt(c, b), verifySignature, b);
      if o.result.Success? then None else Some(o.result.error)
  }

  /** With this package's worker, a block the filter accepts has the right
      header hash, is linked to a parent the opened chain knows, and its
      transaction root, state root and receipts agree with that chain. */
  lemma AcceptedByLocalWorker(headerHash: Header -> Hash, stateAt: Hash -> Option<Chain>,
                              envAt: (Chain, Block) -> BlockWorker.Env, vs: bool, b: Block)
    requires DoValidate(BlockDeps(headerHash, stateAt, LocalWorker(envAt, vs)), b).None?
    ensures headerHash(b.header) == b.headerHash
    ensures stateAt(b.header.prevBlockHash).Some?
    ensures var env := envAt(stateAt(b.header.prevBlockHash).value, b);
            && env.blockByHash(b.header.prevBlockHash).Some?
            && BlockWorker.LinkedTo(b, env.blockByHash(b.header.prevBlockHash).value)
            && b.header.txRoot == BlockWorker.TxsRoot(env, b.transactions)
            && b.header.stateRoot == env.rootAfter(|b.transactions|)
            && |BlockWorker.VerifyBlockSpec(env, vs, b).result.value.receipts| == |b.transactions|
  {
    var chain := stateAt(b.header.prevBlockHash).value;
    var env := envAt(chain, b);
    assert LocalWorker(envAt, vs)(chain, b).None?;
    BlockWorker.VerifyBlockAccepted(env, vs, b);
  }

  /** The verdict of BlockFilter.Verify: anything but a block is an invalid
      block message, with no validation at all. */
  function BlockVerdict(d: BlockDeps, msg: Message): (r: Option<Error>)
    ensures !msg.BlockMessage? ==> r == Some(InvalidBlockMessage)
    ensures msg.BlockMessage? ==> r == DoValidate(d, msg.block)
  {
    match msg
    case BlockMessage(b) => DoValidate(d, b)
    case _ => Some(InvalidBlockMessage)
  }

  /** The events one Verify call leaves behind: one failure event carrying
      the error, or none. */
  function BlockEvents(r: Option<Error>): (es: seq<Event>)
    ensures r.None? <==> es == []
    ensures r.Some? ==> es == [BlockVerifyFailed(r.value)]
  {
    if r.Some? then [BlockVerifyFailed(r.value)] else []
  }

  class BlockFilter {
    const center: EventCenter
    const deps: BlockDeps

    /** NewBlockFilter. */
    constructor (center: EventCenter, deps: BlockDeps)
      ensures this.center == center && this.deps == deps
    {
      this.center := center;
      this.deps := deps;
    }

    /** Verify: the verdict, and one failure event for a rejected message;
        what the event sink answers does not change the verdict. */
    method Verify(msg: Message) returns (err: Option<Error>)
      modifies center
      ensures err == BlockVerdict(deps, msg)
      ensures center.notified == old(center.notified) + BlockEvents(err)
    {
      match msg {
        case BlockMessage(b) =>
          err := DoValidate(deps, b);
        case _ =>
          err := Some(InvalidBlockMessage);
      }
      if err.Some? {
        var _ := center.Notify(BlockVerifyFailed(err.value));
      }
    }
  }
}
