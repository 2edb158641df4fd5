# gossipswitch, modelled in Dafny

This project models the core of the gossip switch of the DSiSc blockchain: a
message switch with two in-ports and two out-ports. A message read from an
in-port goes to the switch's filter. The switch broadcasts it to every
out-port when the filter returns nil, and drops it otherwise.

Two filters are modelled:

- the **transaction filter**, which checks a transaction's sender signature
  against the configured chain id;
- the **block filter**, which checks a block's header hash, opens the world
  state of its parent and runs the block validation **worker**.

The worker runs its checks in a fixed order. It checks the parent and its
chain id, the previous hash and the height. It then checks the transaction
root and the header hash. It replays every transaction, then checks the
receipts root, the state root and the mix digest.

Each source file keeps its own form:

- The worker, the filters, the ports and the switch are classes whose
  methods update their fields: the worker's block, receipts and logs; the
  event sink's trace; a port's queue or subscriber list; the switch's port
  maps and running flag.
- The loops of the source stay loops: the transaction root, the replay,
  the receipts root, the out-port fan-out and the broadcast over the
  out-ports.
- Each method is proved against a pure specification function:
  `VerifyBlockSpec`, `DoValidate`, `Decide`, `Fanout`, and so on.
- The properties the source promises are proved about those functions as
  lemmas.

Foreign collaborators are uninterpreted functions held in datatypes
(`BlockWorker.Env`, `BlockFilters.BlockDeps`, the `sender` of the
transaction filter). These are the chain's block lookup, the hashes and
the merkle root, sender recovery, the transaction executor, the chain's
intermediate root and its logs. The configuration lookup of the hash
algorithm is an `Option<string>` parameter.

Files, one module each:

- `types.dfy` holds hashes, addresses, uint64, blocks, transactions,
  receipts, messages and errors.
- `events.dfy` holds the event sink.
- `filter_common.dfy` models filter/common.go.
- `block_worker.dfy` models filter/block/worker.go.
- `block_filter.dfy` models filter/block/block_filter.go.
- `tx_filter.dfy` models filter/transaction/tx_filter.go.
- `port.dfy` models port/port.go.
- `switch.dfy` models switch.go.

Where the code and the design description disagree, the model follows the
code:

- The block filter's `Verify` takes only the message. It has no stale-height
  check, no "block existed" event and no lock.
- The block filter returns the worker's error unchanged.
- After a successful validation, persisting the block is a detached call
  and cannot fail `Verify`.
- switch.go builds the transaction filter with two arguments, while
  `NewTxFilter` takes three, the third being the chain id. The model passes
  the chain id from the configuration.
- switch.go builds the block filter with two arguments, while
  `NewBlockFilter` takes only the event sink. The model passes the block
  filter its collaborators instead.
- `getValidateWorker` builds the external validator's worker, not the
  worker of filter/block/worker.go. The block filter therefore takes its
  worker abstractly (`BlockDeps.runWorker`).
- `BlockFilters.LocalWorker` plugs in this package's worker, and
  `AcceptedByLocalWorker` states what acceptance then means. The worker's
  collaborators are taken from both the opened chain and the candidate
  block, because replaying the block's own transactions on that chain
  decides the executor's answers and the intermediate roots.

## Model

| member | source | states |
|---|---|---|
| Types.AddU64 | filter/block/worker.go:157 | uint64 addition wraps: the plain sum below 2^64, the sum minus 2^64 above |
| FilterCommon.HashAlg | filter/common.go:12-20 | the configured algorithm name when one is present, "SHA256" otherwise |
| FilterCommon.RlpHash | filter/common.go:22-28 | the digest of the encoding under the configured algorithm, or under SHA256 when none is configured |
| FilterCommon.HeaderHash | filter/common.go:41-44 | the digest of the header's encoding under the configured algorithm, or under SHA256 |
| FilterCommon.HeaderHashIgnoresBody | filter/common.go:41-44 | two blocks with the same header have the same HeaderHash, whatever their cached hash and transactions |
| FilterCommon.TxHash | filter/common.go:31-38 | a set memo slot is returned as stored, without recomputing; an empty one gets the hash of the encoded transaction, which is stored; afterwards the slot holds the returned hash |
| FilterCommon.TxHashTwice | filter/common_test.go:83-87 | two TxHash calls on one transaction return the same hash, even when its data, the configuration or the digest changed in between |
| FilterCommon.NewRefAddress | filter/common.go:46-56 | NewRefAddress(a).Address() is a |
| Events.EventCenter.Notify | filter/block/block_filter.go:41 | the sink appends the event to its trace; what it answers is its own, fixed value |
| BlockWorker.TxHashesAt | filter/block/worker.go:33-37 | one leaf per transaction, the k-th leaf being the hash of the k-th transaction |
| BlockWorker.GetTxsRoot | filter/block/worker.go:33-40 | the loop's result is the merkle root of the transaction hashes in transaction order |
| BlockWorker.VerifyTrsSignatureAsWritten | filter/block/worker.go:181-193 | the check as written dereferences a nil From (exactly when recovery succeeds and From is nil) and passes exactly when the recovered sender equals From |
| BlockWorker.NilFromCrashesCheck | filter/block/worker.go:188 | a transaction whose signature recovers but whose From is nil makes the check as written dereference nil |
| BlockWorker.VerifyTrsSignature | filter/block/worker.go:181-193 | corrected check: true exactly when the Frontier signer recovers a sender and From is that sender; agrees with the code as written wherever From is set |
| BlockWorker.VerifyTransaction | filter/block/worker.go:139-174 | a bad signature (when checking is on) fails before the executor is consulted; and the executor's error is returned as is. A good signature, or none checked, with a successful executor gives a receipt, and nothing else does. On success, GasUsed is the executor's gas and the cumulative gas is the caller's counter plus that gas (uint64). The receipt also carries the status, the transaction hash, the chain's logs and the post state, and records the created contract address only when the recipient is nil |
| BlockWorker.TxOutcome | filter/block/worker.go:89 | one transaction's contribution is its receipt when VerifyTransaction with a fresh gas counter succeeds, its error otherwise |
| BlockWorker.TxOutcomes | filter/block/worker.go:87-89 | one outcome per transaction, the k-th being the k-th transaction's at index k |
| BlockWorker.ReplayOfSucceeds | filter/block/worker.go:87-96 | the replay succeeds exactly when every outcome does, and then gives one receipt per outcome, in order |
| BlockWorker.ReplayOfFailurePersists | filter/block/worker.go:90-93 | once a prefix of the replay fails, every longer prefix fails with the same error |
| BlockWorker.ReplayOfStep | filter/block/worker.go:87-96 | one more transaction: a failure ends the replay with its error, a receipt is appended |
| BlockWorker.ReplayOfFirstFailure | filter/block/worker.go:90-93 | the first failing outcome decides the replay's error |
| BlockWorker.ReplaySucceeds | filter/block/worker.go:87-96 | the replay of a block succeeds exactly when every VerifyTransaction does; then it has one receipt per transaction, the k-th receipt being the k-th transaction's |
| BlockWorker.ReplayFirstFailure | filter/block/worker.go:87-93 | the first transaction whose VerifyTransaction fails aborts the replay with that same error |
| BlockWorker.ReplayGasIsPerTransaction | filter/block/worker.go:157-163 | every transaction gets a fresh gas counter, so every receipt's cumulative gas equals its own gas |
| BlockWorker.AllLogsAppend | filter/block/worker.go:95 | appending a receipt appends its logs to the concatenated logs |
| BlockWorker.ReceiptHashesAt | filter/block/worker.go:97-101 | one receipt hash per receipt, in receipt order |
| BlockWorker.OutcomeAccepted | filter/block/worker.go:42-137 | whatever receipts the replay gave, an accepted block has a parent, the right chain id, previous hash and height, and its transaction root. Its header hash is zero or right, its state root is the chain's root after all transactions, and its digest is zero or right. It keeps those receipts and their logs, and its ReceiptsRoot is their root |
| BlockWorker.VerifyBlockAccepted | filter/block/worker.go:42-137 | an accepted block is linked to its parent, and its roots, header hash and digest agree with the collaborators. It has exactly one receipt per transaction (the k-th being the k-th transaction's successful receipt), its logs are their logs in order, and its ReceiptsRoot is the root of those receipts |
| BlockWorker.OutcomeMutatesOnlyReceiptsRoot | filter/block/worker.go:103-114 | the worker changes no field of the block except ReceiptsRoot, and that one only when it was the zero hash |
| BlockWorker.LinkageChecksInOrder | filter/block/worker.go:44-64 | parent lookup, chain id, previous hash and height run in that order, and the first failing one's error is reported |
| BlockWorker.HashChecksInOrder | filter/block/worker.go:65-79 | the transaction root is checked before the header hash, and the header-hash check passes when the declared hash is zero |
| BlockWorker.HeaderChecksInOrder | filter/block/worker.go:44-79 | the six checks before the replay report the first failing one's error, in source order |
| BlockWorker.ResultChecksInOrder | filter/block/worker.go:97-131 | after a successful replay: receipts root (compared only when non-zero), then state root, then digest (skipped when zero, computed on the header after the receipts-root assignment); the first failing one's error is reported |
| BlockWorker.OutcomeIsFirstFailure | filter/block/worker.go:42-137 | whatever the replay gave, the worker's verdict is the error of the first failing check among the ten, and acceptance exactly when none fails |
| BlockWorker.VerifyBlockIsFirstFailure | filter/block/worker.go:42-137 | VerifyBlock reports the first failing check's error in the order parent, chain id, previous hash, height, tx root, header hash, replay, receipts root, state root, digest, and accepts exactly when every one of the ten checks passes on its own |
| BlockWorker.ReplayTransactions | filter/block/worker.go:81-96 | the replay loop gives the replay's receipts or its first error, and on success the concatenated logs of the receipts |
| BlockWorker.GetReceiptsRoot | filter/block/worker.go:97-102 | the loop's result is the merkle root of the receipt hashes in receipt order |
| BlockWorker.Worker.constructor | filter/block/worker.go:25-31 | a worker for one block and chain, with no receipts or logs yet |
| BlockWorker.Worker.GetReceipts | filter/block/worker.go:176-179 | the receipts the worker holds |
| BlockWorker.Worker.VerifyBlock | filter/block/worker.go:42-137 | the block, the error, the receipts and the logs are those of VerifyBlockSpec; any error leaves receipts and logs unchanged |
| BlockFilters.DoValidate | filter/block/block_filter.go:47-76 | a header-hash mismatch (compared even when zero) is reported first; then a parent state that cannot be opened; otherwise the worker's error is returned unchanged |
| BlockFilters.DoValidateAccepts | filter/block/block_filter.go:47-76 | nil exactly when the header hash is right, the parent state opens and the worker accepts the block on it |
| BlockFilters.HeaderMismatchIgnoresChain | filter/block/block_filter.go:50-55 | a header-hash mismatch is decided before the parent state is looked up: chains and workers play no part |
| BlockFilters.MissingStateIgnoresWorker | filter/block/block_filter.go:57-63 | a parent state that cannot be opened is decided before any worker runs |
| BlockFilters.LocalWorker | filter/block/block_filter.go:79-81 | the worker built from the parent's chain and the block accepts exactly when VerifyBlock does on the collaborators of that chain and block, and otherwise returns VerifyBlock's error |
| BlockFilters.AcceptedByLocalWorker | filter/block/block_filter.go:79-81 | with this package's worker, an accepted block has the right header hash and an openable parent state. It is linked to its parent and agrees with that chain's transaction root and state root, with one receipt per transaction |
| BlockFilters.BlockVerdict | filter/block/block_filter.go:28-36 | a message that is not a block is an invalid block message, with no validation; a block gets doValidate's verdict |
| BlockFilters.BlockEvents | filter/block/block_filter.go:38-43 | a non-nil verdict yields exactly one block-verify-failed event carrying it, a nil verdict none |
| BlockFilters.BlockFilter.constructor | filter/block/block_filter.go:20-24 | a block filter on the given event sink |
| BlockFilters.BlockFilter.Verify | filter/block/block_filter.go:28-44 | the returned error is the verdict, whatever the sink answers, and the sink's trace grows by exactly the events of that verdict |
| TxFilters.AsInt64 | filter/transaction/tx_filter.go:45 | int64(chainId) lies in the int64 range and has the same 64 bits as chainId |
| TxFilters.AsInt64Keeps | filter/transaction/tx_filter.go:45 | chain ids below 2^63 reach the signer unchanged, larger ones turn negative |
| TxFilters.SignerFor | filter/transaction/tx_filter.go:45 | the signer is EIP-155; its chain id is in the int64 range and has the 64 bits of the configured chain id, so it is int64(chainId) |
| TxFilters.DoVerifyAsWritten | filter/transaction/tx_filter.go:43-63 | doVerify as written panics exactly when checking is on, recovery succeeds and From is nil; it passes exactly when checking is off or the recovered sender is From |
| TxFilters.NilFromPanicsFilter | filter/transaction/tx_filter.go:54 | a transaction whose signature recovers but whose From is nil panics doVerify as written |
| TxFilters.Decide | filter/transaction/tx_filter.go:43-63 | corrected decision: nil exactly when checking is off or the recovered sender is From. An error when recovery fails, and another when the sender differs. It agrees with the code as written wherever that does not panic |
| TxFilters.SignatureOffAcceptsAll | filter/transaction/tx_filter.go:44 | with signature checking off, every transaction is accepted |
| TxFilters.TxEvent | filter/transaction/tx_filter.go:47-62 | the one event of a verification is "succeeded" exactly when the verdict is nil, and carries the transaction or the error |
| TxFilters.TxVerdict | filter/transaction/tx_filter.go:33-40 | a message that is not a transaction is unsupported; a transaction gets the decision |
| TxFilters.TxVerdictIgnoresPort | filter/transaction/tx_filter.go:33-40 | the verdict is the same for every port id |
| TxFilters.TxFilter.constructor | filter/transaction/tx_filter.go:23-29 | a transaction filter with the given sink, signature flag and chain id |
| TxFilters.TxFilter.DoVerify | filter/transaction/tx_filter.go:43-63 | the returned error is the decision, whatever the sink answers, and exactly one event is notified for it |
| TxFilters.TxFilter.Verify | filter/transaction/tx_filter.go:33-40 | a transaction is decided with one event; anything else is refused and notifies nothing |
| Ports.FanoutAt | port/port.go:87-94 | Write makes one call per subscriber, the k-th going to the k-th subscriber with the message |
| Ports.FanoutIgnoresAnswers | port/port.go:90-92 | what the subscribers answer does not change who is called or with what |
| Ports.InPort.constructor | port/port.go:30-36 | a new in-port has the given id and nothing waiting |
| Ports.InPort.PortId | port/port.go:44-46 | the id given at construction |
| Ports.InPort.Send | port/port.go:39-41 | a message sent on the port's channel joins the end of the queue |
| Ports.InPort.Read | port/port.go:49-51 | the oldest message not yet read, or none when nothing waits |
| Ports.SendThenRead | port/port_test.go:30-42 | messages sent to an empty in-port are read back in the order sent |
| Ports.OutPort.constructor | port/port.go:65-70 | a new out-port has the given id and no subscribers |
| Ports.OutPort.PortId | port/port.go:82-84 | the id given at construction |
| Ports.OutPort.BindToPort | port/port.go:73-79 | the subscriber is appended at the end, earlier ones unchanged, and nil is returned |
| Ports.OutPort.Write | port/port.go:87-94 | every bound subscriber is called exactly once, in bind order, with the same message. Their errors do not stop the loop, nil is returned, and the subscriber list is not changed |
| Switch.SwitchFilter.Verify | switch.go:141 | the filter's verdict on a message from a port, with the events that verdict reports |
| Switch.GossipSwitch.constructor | switch.go:37-45 | a new switch is stopped and has exactly in-ports and out-ports {0, 1}, fresh and empty, each under its own id |
| Switch.GossipSwitch.InitPort | switch.go:72-78 | local and remote in-ports and out-ports are created under their ids; other entries are kept |
| Switch.GossipSwitch.InPort | switch.go:81-84 | the in-port stored under the id, or nil; with the fixed layout, nil for every id other than 0 and 1 |
| Switch.GossipSwitch.OutPort | switch.go:87-90 | the out-port stored under the id, or nil; with the fixed layout, nil for every id other than 0 and 1 |
| Switch.GossipSwitch.Start | switch.go:94-105 | stopped to running with nil; when already running, an error, and it stays running |
| Switch.GossipSwitch.Stop | switch.go:108-116 | running to stopped with nil; when already stopped, an error, and it stays stopped |
| Switch.GossipSwitch.IsRunning | switch.go:119-121 | true exactly when the running flag is set |
| Switch.GossipSwitch.BroadCastMsg | switch.go:147-153 | every out-port writes the message to all its subscribers, and nil is returned |
| Switch.GossipSwitch.OnRecvMsg | switch.go:139-144 | the filter reports its events. A message it accepts is broadcast to every out-port; a rejected one reaches no out-port |
| Switch.NewGossipSwitchByType | switch.go:49-69 | an unknown type gives a nil switch and an error. A known type gives a new stopped switch with the fixed port layout, a transaction or block filter on the given sink, and the configured flag and chain id |

## Left out

- Goroutines, channels and mutexes are not modelled. This covers the receive
  routine (switch.go:124-136), the detached `go outPort.Write` of the
  broadcast, the port locks, and the lack of ordering between in-ports. The
  broadcast is a sequential loop over the out-ports, in no fixed order.
- `Start`: spawning the receive routines is not modelled, only the
  compare-and-swap on the running flag.
- `InPort.Read` blocks on a channel in the source. The model keeps the
  channel as a FIFO queue, and a read with nothing waiting returns None. The
  `Channel()` accessor is `InPort.Send`.
- Subscribers are identified by their bind order (`SubscriberId`). What they
  answer is the `respond` parameter, and Write returns the trace of calls it
  made.
- Hashing and encoding are uninterpreted functions. This covers the SHA-3
  suite, RLP, JSON, and the header hash of filter/block/common.go.
  filter/block/common.go is not part of this model.
- The merkle tree of the validator library (`ComputeMerkleRoot`) is an
  uninterpreted function.
- Transaction execution is the executor's answer for each transaction index
  (`Env.apply`). The model leaves out the EVM, `ApplyTransaction`, the shared
  gas pool with its 65536 budget, and `Prepare`. Running out of gas is one of
  the executor's errors.
- The chain's `IntermediateRoot` is `rootAfter(n)`: its root once the first n
  transactions are applied.
- `GetLogs` is `logsOf`, and `CreateBloom` is `createBloom`.
- `GetBlockByHash` is `blockByHash`, which returns an Option.
- Sender recovery (the Frontier and EIP-155 signers of the wallet library) is
  a partial function that returns an Option.
- Persisting an accepted block (`WriteBlockWithReceipts`, block_filter.go:74)
  is fire-and-forget I/O. It is left out.
- Logging is left out, and so are the port `state` counters, which nothing
  updates.
- `TxHash`'s memo slot is modelled on `TransactionRef`, a class of its own.
  The transaction values carried in blocks and messages hold no memo.
- `BlockWorker.Worker.VerifyBlock`: in the source the block is a shared
  pointer, so assigning ReceiptsRoot is also visible to the caller. The
  model updates the worker's own `block` field and does not model that
  aliasing.
- The interfaces and the tests of older revisions are left out. These are
  interface.go, filter/switch_filter.go (modelled as the `SwitchFilter`
  datatype), the root-level port_test.go, block_filter_test.go and
  tx_filter_test.go, and filter/block/block_filter_test.go, whose height
  check is not in the code.
- The configuration lookup is a parameter of `HashAlg`: the hash-algorithm
  name found, or None.
- `Switch.NewGossipSwitchByType`: the configuration is two fields (the
  signature flag and the chain id). The filters' collaborators are an
  extra parameter (`FilterDeps`).

## Findings

| source | as written | input that shows it | evidently intended | confidence | as-written member | corrected member |
|---|---|---|---|---|---|---|
| filter/block/worker.go:188 | `VerifyTrsSignature` dereferences `tx.Data.From` without a nil check | signature checking on, and a transaction whose signature recovers to a sender but whose `From` is nil: the dereference panics | a missing declared sender is a failed signature check | medium, not executed | BlockWorker.VerifyTrsSignatureAsWritten, BlockWorker.NilFromCrashesCheck | BlockWorker.VerifyTrsSignature |
| filter/transaction/tx_filter.go:54 | `doVerify` dereferences `tx.Data.From` without a nil check | signature checking on, and a transaction whose signature recovers under the chain's EIP-155 signer but whose `From` is nil: the dereference panics | a missing declared sender is a signature verification failure, reported with a failed event | medium, not executed | TxFilters.DoVerifyAsWritten, TxFilters.NilFromPanicsFilter | TxFilters.Decide |
