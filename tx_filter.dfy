/** The transaction filter of a transaction switch: it accepts a transaction
    when signature checking is off, or when the EIP-155 signer for the
    configured chain recovers exactly the declared sender; every
    verification of a transaction reports one event, succeeded or failed. */
module TxFilters {
  import opened Types
  import opened Events

  const Int64Bound: int := 0x8000_0000_0000_0000

  /** int64(x) on a uint64: the same 64 bits read in two's complement. */
  function AsInt64(x: U64): (r: int)
    ensures -Int64Bound <= r < Int64Bound
    ensures r % U64Modulus == x
  {
    if x < Int64Bound then x else x - U64Modulus
  }

  /** Chain ids below 2^63 reach the signer unchanged; the others turn
      negative. */
  lemma AsInt64Keeps(x: U64)
    ensures x < Int64Bound ==> AsInt64(x) == x
    ensures x >= Int64Bound ==> AsInt64(x) < 0
  {
  }

  /** The signer doVerify builds for a chain id. */
  function SignerFor(chainId: U64): (s: Signer)
    ensures s.EIP155Signer? && -Int64Bound <= s.chainId < Int64Bound
    ensures s.chainId % U64Modulus == chainId
  {
    EIP155Signer(AsInt64(chainId))
  }

  /** How doVerify as written can end. */
  datatype TxCheck = TxPassed | TxRejected(err: Error) | NilFromPanic

  /** doVerify as written: after a successful recovery it dereferences the
      declared sender without checking it, so a nil From panics. */
  function DoVerifyAsWritten(verifySignature: bool, chainId: U64,
                              sender: (Signer, Transaction) -> Option<Address>, tx: Transaction): (r: TxCheck)
    ensures r == NilFromPanic <==>
              verifySignature && sender(SignerFor(chainId), tx).Some? && tx.data.from.None?
    ensures r == TxPassed <==>
              !verifySignature || (sender(SignerFor(chainId), tx).Some? && tx.data.from == sender(SignerFor(chainId), tx))
  {
    if !verifySignature then TxPassed
    else
      match sender(SignerFor(chainId), tx)
      case None => TxRejected(SenderRecoveryFailed)
      case Some(signed) =>
        match tx.data.from
        case None => NilFromPanic
        case Some(declared) => if declared == signed then TxPassed else TxRejected(SignatureVerifyFailed)
  }

  /** A transaction without a declared sender crashes the filter as
      written once its signature recovers. */
  lemma NilFromPanicsFilter(chainId: U64, sender: (Signer, Transaction) -> Option<Address>, tx: Transaction)
    requires sender(SignerFor(chainId), tx).Some?
    requires tx.data.from.None?
    ensures DoVerifyAsWritten(true, chainId, sender, tx) == NilFromPanic
  {
  }

  /** The decision of doVerify, corrected so that a nil From is a failed
      signature check: None accepts, otherwise the error returned. */
  function Decide(verifySignature: bool, chainId: U64,
                  sender: (Signer, Transaction) -> Option<Address>, tx: Transaction): (r: Option<Error>)
    // accepted exactly when checking is off or the recovered sender is the declared one
    ensures r.None? <==>
              !verifySignature || (sender(SignerFor(chainId), tx).Some? && tx.data.from == sender(SignerFor(chainId), tx))
    ensures verifySignature && sender(SignerFor(chainId), tx).None? ==> r == Some(SenderRecoveryFailed)
    ensures verifySignature && sender(SignerFor(chainId), tx).Some? && tx.data.from != sender(SignerFor(chainId), tx) ==>
              r == Some(SignatureVerifyFailed)
    // wherever the code as written does not panic, the two agree
    ensures DoVerifyAsWritten(verifySignature, chainId, sender, tx) != NilFromPanic ==>
              (r.None? <==> DoVerifyAsWritten(verifySignature, chainId, sender, tx) == TxPassed)
              && (r.Some? ==> DoVerifyAsWritten(verifySignature, chainId, sender, tx) == TxRejected(r.value))
  {
    if !verifySignature then None
    else
      match sender(SignerFor(chainId), tx)
      case None => Some(SenderRecoveryFailed)
      case Some(signed) => if tx.data.from == Some(signed) then None else Some(SignatureVerifyFailed)
  }

  /** With signature checking off every transaction is accepted. */
  lemma SignatureOffAcceptsAll(chainId: U64, sender: (Signer, Transaction) -> Option<Address>, tx: Transaction)
    ensures Decide(false, chainId, sender, tx) == None
  {
  }

  /** The one event a verification of tx reports: succeeded exactly when
      the verdict is nil. */
  function TxEvent(tx: Transaction, r: Option<Error>): (e: Event)
    ensures e.TxVerifySucceeded? <==> r.None?
    ensures r.None? ==> e == TxVerifySucceeded(tx)
    ensures r.Some? ==> e == TxVerifyFailed(r.value)
  {
    if r.None? then TxVerifySucceeded(tx) else TxVerifyFailed(r.value)
  }

  /** The verdict of TxFilter.Verify: anything but a transaction is an
      unsupported message, whatever port it came from. */
  function TxVerdict(verifySignature: bool, chainId: U64, sender: (Signer, Transaction) -> Option<Address>,
                     portId: int, msg: Message): (r: Option<Error>)
    ensures !msg.TxMessage? ==> r == Some(UnsupportedMessageType)
    ensures msg.TxMessage? ==> r == Decide(verifySignature, chainId, sender, msg.tx)
  {
    match msg
    case TxMessage(tx) => Decide(verifySignature, chainId, sender, tx)
    case _ => Some(UnsupportedMessageType)
  }

  /** The port a message arrived on plays no part in the verdict. */
  lemma TxVerdictIgnoresPort(vs: bool, chainId: U64, sender: (Signer, Transaction) -> Option<Address>,
                             p1: int, p2: int, msg: Message)
    ensures TxVerdict(vs, chainId, sender, p1, msg) == TxVerdict(vs, chainId, sender, p2, msg)
  {
  }

  class TxFilter {
    const center: EventCenter
    const verifySignature: bool
    const chainId: U64
    /** Sender recovery of the wallet library: None when it fails. */
    const sender: (Signer, Transaction) -> Option<Address>

    /** NewTxFilter. */
    constructor (center: EventCenter, verifySignature: bool, chainId: U64,
                 sender: (Signer, Transaction) -> Option<Address>)
      ensures this.center == center && this.verifySignature == verifySignature
      ensures this.chainId == chainId && this.sender == sender
    {
      this.center := center;
      this.verifySignature := verifySignature;
      this.chainId := chainId;
      this.sender := sender;
    }

    /** doVerify: the decision, and exactly one event for it; the sink's
        answer is ignored. */
    method DoVerify(tx: Transaction) returns (err: Option<Error>)
      modifies center
      ensures err == Decide(verifySignature, chainId, sender, tx)
      ensures center.notified == old(center.notified) + [TxEvent(tx, err)]
    {
      if verifySignature {
        var from := sender(SignerFor(chainId), tx);
        if from.None? {
          err := Some(SenderRecoveryFailed);
          var _ := center.Notify(TxVerifyFailed(err.value));
          return;
        }
        if tx.data.from != from {
          err := Some(SignatureVerifyFailed);
          var _ := center.Notify(TxVerifyFailed(err.value));
          return;
        }
      }
      var _ := center.Notify(TxVerifySucceeded(tx));
      err := None;
    }

    /** Verify: a transaction goes to doVerify; anything else is refused
        with no event. */
    method Verify(portId: int, msg: Message) returns (err: Option<Error>)
      modifies center
      ensures err == TxVerdict(verifySignature, chainId, sender, portId, msg)
      ensures msg.TxMessage? ==> center.notified == old(center.notified) + [TxEvent(msg.tx, err)]
      ensures !msg.TxMessage? ==> center.notified == old(center.notified)
    {
      match msg {
        case TxMessage(tx) =>
          err := DoVerify(tx);
        case _ =>
          err := Some(UnsupportedMessageType);
      }
    }
  }
}
