/** The hashing helpers of the filter package: the configured hash
    algorithm, the hash of an encoded value, the memoised transaction hash,
    the header hash, and the address wrapper RefAddress. */
module FilterCommon {
  import opened Types

  /** The algorithm used when the global configuration names none. */
  const DefaultHashAlg: string := "SHA256"

  /** The collaborators behind rlpHash: the digest of the named algorithm,
      and the canonical encodings of a transaction and of a header. */
  datatype Crypto = Crypto(
    digest: (string, seq<Byte>) -> Hash,
    encodeTx: TxData -> seq<Byte>,
    encodeHeader: Header -> seq<Byte>)

  /** HashAlg: the algorithm named in the configuration (`configured` is
      the result of looking up the hash-algorithm key), else SHA256. */
  function HashAlg(configured: Option<string>): (alg: string)
    ensures configured.Some? ==> alg == configured.value
    ensures configured.None? ==> alg == DefaultHashAlg
  {
    match configured
    case Some(name) => name
    case None => DefaultHashAlg
  }

  /** rlpHash: the configured digest of an encoding. */
  function RlpHash(c: Crypto, configured: Option<string>, encoded: seq<Byte>): (h: Hash)
    ensures configured.Some? ==> h == c.digest(configured.value, encoded)
    ensures configured.None? ==> h == c.digest(DefaultHashAlg, encoded)
  {
    c.digest(HashAlg(configured), encoded)
  }

  /** HeaderHash: the hash of the block's header alone, under the
      configured algorithm or SHA256. */
  function HeaderHash(c: Crypto, configured: Option<string>, b: Block): (h: Hash)
    ensures configured.Some? ==> h == c.digest(configured.value, c.encodeHeader(b.header))
    ensures configured.None? ==> h == c.digest(DefaultHashAlg, c.encodeHeader(b.header))
  {
    RlpHash(c, configured, c.encodeHeader(b.header))
  }

  /** HeaderHash depends on the header only: the cached HeaderHash and the
      transactions of the block play no part in it. */
  lemma HeaderHashIgnoresBody(c: Crypto, configured: Option<string>, b1: Block, b2: Block)
    requires b1.header == b2.header
    ensures HeaderHash(c, configured, b1) == HeaderHash(c, configured, b2)
  {
  }

  /** A *types.Transaction: its data and the write-once hash memo slot. */
  class TransactionRef {
    var data: TxData
    var hash: Option<Hash>

    constructor (data: TxData)
      ensures this.data == data && hash == None
    {
      this.data := data;
      hash := None;
    }
  }

  /** TxHash: the stored hash when the slot is set, otherwise the hash of
      the encoded transaction, which is then stored. */
  method TxHash(c: Crypto, configured: Option<string>, tx: TransactionRef) returns (h: Hash)
    modifies tx`hash
    ensures old(tx.hash).Some? ==> h == old(tx.hash).value
    ensures old(tx.hash).None? ==> h == RlpHash(c, configured, c.encodeTx(tx.data))
    ensures tx.hash == Some(h)
  {
    if tx.hash.Some? {
      return tx.hash.value;
    }
    h := RlpHash(c, configured, c.encodeTx(tx.data));
    tx.hash := Some(h);
  }

  /** Two TxHash calls on one transaction give the same hash, even when its
      data, the configuration or the digest changed in between. */
  method TxHashTwice(c1: Crypto, configured1: Option<string>, c2: Crypto, configured2: Option<string>,
                     tx: TransactionRef, newData: TxData) returns (h1: Hash, h2: Hash)
    modifies tx
    ensures h1 == h2
    ensures tx.hash == Some(h1) && tx.data == newData
  {
    h1 := TxHash(c1, configured1, tx);
    tx.data := newData;
    h2 := TxHash(c2, configured2, tx);
  }

  /** RefAddress wraps an address. */
  datatype RefAddress = RefAddress(addr: Address) {
    function Address(): Address { addr }
  }

  /** NewRefAddress(a).Address() gives back a. */
  function NewRefAddress(a: Address): (r: RefAddress)
    ensures r.Address() == a
  {
    RefAddress(a)
  }
}
