/**
 * The shapes of the upstream payloads that the data hook stores and the
 * console formats. Field names follow the indexing API's JSON keys.
 */
module Records {
  import opened Wrappers
  import opened JsValues

  /** A payload property that the code tests with `Array.isArray`. */
  datatype Listing<T> = NotArray | Items(items: seq<T>)

  /** `nft.metadata`: either a plain (possibly falsy) value or an object
      carrying a `minter_address`. */
  datatype Metadata = MetaScalar(v: Scalar) | MetaObject(minterAddress: Scalar)

  datatype Nft = Nft(
    amount: Scalar,
    blockNumber: Scalar,
    blockNumberMinted: Scalar,
    collectionBannerImage: Scalar,
    collectionLogo: Scalar,
    contractType: Scalar,
    lastMetadataSync: Scalar,
    lastTokenUriSync: Scalar,
    metadata: Metadata,
    name: Scalar,
    ownerOf: Scalar,
    possibleSpam: Scalar,
    symbol: Scalar,
    tokenAddress: Scalar,
    tokenHash: Scalar,
    tokenId: Scalar,
    tokenUri: Scalar,
    verifiedCollection: Scalar)

  /** The raw NFT response: a page object whose `result` is the NFT list. */
  datatype NftPage = NftPage(result: Listing<Nft>)

  /** A stored NFT value as `Array.isArray` sees it: a bare array of NFTs,
      or a page object (which is not an array). */
  datatype NftValue = ArrayValue(items: seq<Nft>) | PageObject(page: NftPage)

  datatype Transaction = Transaction(
    hash: Scalar,
    nonce: Scalar,
    transactionIndex: Scalar,
    fromAddress: Scalar,
    fromAddressLabel: Scalar,
    toAddress: Scalar,
    toAddressLabel: Scalar,
    value: Scalar,
    gas: Scalar,
    gasPrice: Scalar,
    input: Scalar,
    receiptCumulativeGasUsed: Scalar,
    receiptGasUsed: Scalar,
    receiptStatus: Scalar,
    blockTimestamp: Scalar,
    blockNumber: Scalar,
    blockHash: Scalar,
    transactionFee: Scalar)

  /** The raw transaction response: a page object whose `result` is the list. */
  datatype TxPage = TxPage(result: Listing<Transaction>)

  /** `first_transaction` / `last_transaction` of an active chain. */
  datatype TxRef = TxRef(blockNumber: Scalar, blockTimestamp: Scalar, transactionHash: Scalar)

  datatype ActiveChain = ActiveChain(
    chain: Scalar,
    chainId: Scalar,
    firstTransaction: Option<TxRef>,
    lastTransaction: Option<TxRef>)

  /** The raw active-chains response. `activeChains` is `None` when the
      property is missing, which makes `active_chains[0]` throw. */
  datatype WalletSummary = WalletSummary(address: Scalar, activeChains: Option<seq<ActiveChain>>)

  /** Floating-point and date conversions the formatters call; they are
      left abstract. `eth` is `(parseFloat(x) / 10**18).toFixed(18)` and
      `iso` is `new Date(x).toISOString()`. */
  datatype Numerics = Numerics(eth: Scalar -> string, iso: Scalar -> string)
}
