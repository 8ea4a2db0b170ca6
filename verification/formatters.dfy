/**
 * The console's record formatters: `formatNFT`, `formatTransactions` and the
 * wallet block (written out twice in the console, modelled once).
 */
module Formatters {
  import opened Wrappers
  import opened JsValues
  import opened Records
  import opened Text

  /** `nft.metadata ? nft.metadata.minter_address : 'N/A'`. A truthy
      non-object metadata has no `minter_address`, which reads `undefined`. */
  function MinterText(m: Metadata): string {
    match m
    case MetaObject(minter) => Show(minter)
    case MetaScalar(v) => if Truthy(v) then "undefined" else "N/A"
  }

  function YesNo(v: Scalar): string {
    if Truthy(v) then "Yes" else "No"
  }

  /** The line inside the nested `metadata` object. */
  function MinterLine(value: string): string {
    "        \"minter_address\": " + value + ","
  }

  /** The nested `metadata` object as it appears after `"metadata": `. */
  function MetadataValue(m: Metadata): string {
    "{\n" + MinterLine(MinterText(m)) + "\n    }"
  }

  const NftKeys: seq<string> := [
    "amount", "block_number", "block_number_minted", "collection_banner_image",
    "collection_logo", "contract_type", "last_metadata_sync", "last_token_uri_sync",
    "metadata", "name", "owner_of", "possible_spam", "symbol", "token_address",
    "token_hash", "token_id", "token_uri", "verified_collection"]

  /** The properties `formatNFT` writes, in template order. */
  function NftFields(n: Nft): (fs: seq<Field>)
    ensures Keys(fs) == NftKeys
  {
    [ Field("amount", Show(n.amount)),
      Field("block_number", Show(n.blockNumber)),
      Field("block_number_minted", Show(n.blockNumberMinted)),
      Field("collection_banner_image", Show(n.collectionBannerImage)),
      Field("collection_logo", Show(n.collectionLogo)),
      Field("contract_type", Show(n.contractType)),
      Field("last_metadata_sync", Show(n.lastMetadataSync)),
      Field("last_token_uri_sync", Show(n.lastTokenUriSync)),
      Field("metadata", MetadataValue(n.metadata)),
      Field("name", Show(n.name)),
      Field("owner_of", Show(n.ownerOf)),
      Field("possible_spam", YesNo(n.possibleSpam)),
      Field("symbol", Show(n.symbol)),
      Field("token_address", Show(n.tokenAddress)),
      Field("token_hash", Show(n.tokenHash)),
      Field("token_id", Show(n.tokenId)),
      Field("token_uri", Show(n.tokenUri)),
      Field("verified_collection", YesNo(n.verifiedCollection)) ]
  }

  /** `formatNFT`: unquoted values; the closing backtick sits after four spaces. */
  function FormatNft(n: Nft): (r: string)
    ensures forall i :: 0 <= i < |NftFields(n)| ==> Shows(r, FieldLine(NftFields(n)[i], false, i == |NftKeys| - 1))
  {
    BlockShowsAll(NftFields(n), false, "    ");
    Block(NftFields(n), false, "    ")
  }

  /** `possible_spam` and `verified_collection` read `Yes` exactly for truthy
      flags and `No` otherwise. */
  lemma NftFlagsShown(n: Nft)
    ensures Truthy(n.possibleSpam) ==> Shows(FormatNft(n), FieldLine(Field("possible_spam", "Yes"), false, false))
    ensures !Truthy(n.possibleSpam) ==> Shows(FormatNft(n), FieldLine(Field("possible_spam", "No"), false, false))
    ensures Truthy(n.verifiedCollection) ==> Shows(FormatNft(n), FieldLine(Field("verified_collection", "Yes"), false, true))
    ensures !Truthy(n.verifiedCollection) ==> Shows(FormatNft(n), FieldLine(Field("verified_collection", "No"), false, true))
  {
    var fs := NftFields(n);
    BlockShowsField(fs, false, "    ", 11);
    BlockShowsField(fs, false, "    ", 17);
  }

  /** The minter line: the object's `minter_address`, `N/A` for falsy
      metadata, and `undefined` for truthy metadata that is not an object. */
  lemma NftMinterShown(n: Nft)
    ensures n.metadata.MetaObject? ==> Shows(FormatNft(n), MinterLine(Show(n.metadata.minterAddress)))
    ensures n.metadata.MetaScalar? && !Truthy(n.metadata.v) ==> Shows(FormatNft(n), MinterLine("N/A"))
    ensures n.metadata.MetaScalar? && Truthy(n.metadata.v) ==> Shows(FormatNft(n), MinterLine("undefined"))
  {
    var fs := NftFields(n);
    BlockShowsField(fs, false, "    ", 8);
    MetadataLineShowsMinter(n.metadata);
    ShowsWithin(FormatNft(n), FieldLine(fs[8], false, false), MinterLine(MinterText(n.metadata)));
  }

  lemma MetadataLineShowsMinter(m: Metadata)
    ensures Shows(FieldLine(Field("metadata", MetadataValue(m)), false, false), MinterLine(MinterText(m)))
  {
    var part := MinterLine(MinterText(m));
    var pre := "    \"" + "metadata" + "\": " + "{\n";
    var post := "\n    }" + ",";
    assert FieldLine(Field("metadata", MetadataValue(m)), false, false) == pre + part + post;
  }

  const TransactionKeys: seq<string> := [
    "hash", "nonce", "transaction_index", "from_address", "from_address_label",
    "to_address", "to_address_label", "value", "gas", "gas_price", "input",
    "receipt_cumulative_gas_used", "receipt_gas_used", "receipt_status",
    "block_timestamp", "block_number", "block_hash", "transaction_fee"]

  function StatusText(v: Scalar): string {
    if v == Str("1") then "Success" else "Failed"
  }

  /** The properties `formatTransactions` writes, in template order. */
  function TransactionFields(t: Transaction, num: Numerics): (fs: seq<Field>)
    ensures Keys(fs) == TransactionKeys
  {
    [ Field("hash", Show(t.hash)),
      Field("nonce", Show(t.nonce)),
      Field("transaction_index", Show(t.transactionIndex)),
      Field("from_address", Show(t.fromAddress)),
      Field("from_address_label", OrElse(t.fromAddressLabel, "N/A")),
      Field("to_address", Show(t.toAddress)),
      Field("to_address_label", OrElse(t.toAddressLabel, "N/A")),
      Field("value", num.eth(t.value) + " ETH"),
      Field("gas", Show(t.gas)),
      Field("gas_price", num.eth(t.gasPrice) + " ETH"),
      Field("input", Show(t.input)),
      Field("receipt_cumulative_gas_used", Show(t.receiptCumulativeGasUsed)),
      Field("receipt_gas_used", Show(t.receiptGasUsed)),
      Field("receipt_status", StatusText(t.receiptStatus)),
      Field("block_timestamp", num.iso(t.blockTimestamp)),
      Field("block_number", Show(t.blockNumber)),
      Field("block_hash", Show(t.blockHash)),
      Field("transaction_fee", num.eth(t.transactionFee) + " ETH") ]
  }

  /** `formatTransactions`: quoted values; the closing backtick is at column 0. */
  function FormatTransaction(t: Transaction, num: Numerics): (r: string)
    ensures forall i :: 0 <= i < |TransactionFields(t, num)| ==>
              Shows(r, FieldLine(TransactionFields(t, num)[i], true, i == |TransactionKeys| - 1))
  {
    BlockShowsAll(TransactionFields(t, num), true, "");
    Block(TransactionFields(t, num), true, "")
  }

  /** `receipt_status` reads `Success` exactly when the status is the string
      `"1"`, and `Failed` for every other value. */
  lemma TransactionStatusShown(t: Transaction, num: Numerics)
    ensures t.receiptStatus == Str("1") ==>
              Shows(FormatTransaction(t, num), FieldLine(Field("receipt_status", "Success"), true, false))
    ensures t.receiptStatus != Str("1") ==>
              Shows(FormatTransaction(t, num), FieldLine(Field("receipt_status", "Failed"), true, false))
  {
    BlockShowsField(TransactionFields(t, num), true, "", 13);
  }

  /** A missing or empty address label reads `N/A`; a set one is shown as is. */
  lemma TransactionLabelsShown(t: Transaction, num: Numerics)
    ensures !Truthy(t.fromAddressLabel) ==>
              Shows(FormatTransaction(t, num), FieldLine(Field("from_address_label", "N/A"), true, false))
    ensures Truthy(t.fromAddressLabel) ==>
              Shows(FormatTransaction(t, num), FieldLine(Field("from_address_label", Show(t.fromAddressLabel)), true, false))
    ensures !Truthy(t.toAddressLabel) ==>
              Shows(FormatTransaction(t, num), FieldLine(Field("to_address_label", "N/A"), true, false))
    ensures Truthy(t.toAddressLabel) ==>
              Shows(FormatTransaction(t, num), FieldLine(Field("to_address_label", Show(t.toAddressLabel)), true, false))
  {
    var fs := TransactionFields(t, num);
    BlockShowsField(fs, true, "", 4);
    BlockShowsField(fs, true, "", 6);
  }

  /** `active_chains[0]`, which is `undefined` for an empty list. */
  function FirstChain(chains: seq<ActiveChain>): Option<ActiveChain> {
    if |chains| > 0 then Some(chains[0]) else None
  }

  /** `active_chains[0]?.<field> || 'undefined'`. */
  function ChainProperty(c: Option<ActiveChain>, chainId: bool): string {
    match c
    case None => "undefined"
    case Some(ac) => OrElse(if chainId then ac.chainId else ac.chain, "undefined")
  }

  /** A property line of the active-chain object (twelve spaces of indent). */
  function ChainLine(key: string, value: string): string {
    "            \"" + key + "\": " + value + ","
  }

  /** A property line of a nested transaction object (sixteen spaces). */
  function NestedLine(key: string, value: string, comma: bool): string {
    "                \"" + key + "\": " + value + (if comma then "," else "")
  }

  /** The literal line written for an absent transaction record. */
  function NullLine(name: string): string {
    "            \"" + name + "\": null,"
  }

  /** The line opening a nested transaction object. */
  function ObjectHeader(name: string): string {
    "            \"" + name + "\": {"
  }

  /** The nested object written for a present transaction record; its falsy
      fields read `undefined`. Only the first object ends with a comma. */
  function TxRefLines(name: string, tx: TxRef, last: bool): seq<string> {
    [ "",
      ObjectHeader(name),
      NestedLine("block_number", OrElse(tx.blockNumber, "undefined"), true),
      NestedLine("block_timestamp", OrElse(tx.blockTimestamp, "undefined"), true),
      NestedLine("transaction_hash", OrElse(tx.transactionHash, "undefined"), false),
      "            }" + (if last then "" else ","),
      "            " ]
  }

  /** The `first_transaction` / `last_transaction` line of the template. */
  function TxRefLine(name: string, r: Option<TxRef>, last: bool): string {
    match r
    case None => NullLine(name)
    case Some(tx) => "            " + Join(TxRefLines(name, tx, last), "\n")
  }

  /** `active_chains[0]?.first_transaction` (`last` false) or
      `active_chains[0]?.last_transaction` (`last` true). */
  function TxRefOf(c: Option<ActiveChain>, last: bool): Option<TxRef> {
    if c.None? then None
    else if last then c.value.lastTransaction
    else c.value.firstTransaction
  }

  function TxRefName(last: bool): string {
    if last then "last_transaction" else "first_transaction"
  }

  /** The wallet template, line by line, for a given first active chain. */
  function WalletLines(address: Scalar, balance: Scalar, c: Option<ActiveChain>): seq<string> {
    [ "",
      "{",
      "    \"address\": " + Show(address) + ",",
      "    \"balance\": " + Show(balance) + " ETH,",
      "    \"active_chains\": [",
      "        {",
      ChainLine("chain", ChainProperty(c, false)),
      ChainLine("chain_id", ChainProperty(c, true)),
      TxRefLine(TxRefName(false), TxRefOf(c, false), false),
      TxRefLine(TxRefName(true), TxRefOf(c, true), true),
      "        }",
      "    ]",
      "}",
      "                " ]
  }

  /** The wallet block for a summary and the snapshot's balance. Reading
      `active_chains[0]` throws when `active_chains` is missing: `None`. */
  function WalletText(w: WalletSummary, balance: Scalar): (r: Option<string>)
    ensures r.None? <==> w.activeChains.None?
  {
    match w.activeChains
    case None => None
    case Some(chains) => Some(Join(WalletLines(w.address, balance, FirstChain(chains)), "\n"))
  }

  /** Absent first/last transaction records (or no active chain at all)
      render as the literal `null` lines. */
  lemma WalletNullLines(w: WalletSummary, balance: Scalar)
    requires w.activeChains.Some?
    ensures TxRefOf(FirstChain(w.activeChains.value), false).None? ==>
              Shows(WalletText(w, balance).value, NullLine("first_transaction"))
    ensures TxRefOf(FirstChain(w.activeChains.value), true).None? ==>
              Shows(WalletText(w, balance).value, NullLine("last_transaction"))
  {
    var ls := WalletLines(w.address, balance, FirstChain(w.activeChains.value));
    JoinShows(ls, "\n", 8);
    JoinShows(ls, "\n", 9);
  }

  /** The `chain` and `chain_id` lines: `undefined` with no active chain or
      a falsy property, the property's text otherwise. */
  lemma WalletChainLinesShown(w: WalletSummary, balance: Scalar)
    requires w.activeChains.Some?
    ensures var chains := w.activeChains.value;
            var text := WalletText(w, balance).value;
            && (|chains| == 0 || !Truthy(chains[0].chain) ==> Shows(text, ChainLine("chain", "undefined")))
            && (|chains| > 0 && Truthy(chains[0].chain) ==> Shows(text, ChainLine("chain", Show(chains[0].chain))))
            && (|chains| == 0 || !Truthy(chains[0].chainId) ==> Shows(text, ChainLine("chain_id", "undefined")))
            && (|chains| > 0 && Truthy(chains[0].chainId) ==> Shows(text, ChainLine("chain_id", Show(chains[0].chainId))))
  {
    var ls := WalletLines(w.address, balance, FirstChain(w.activeChains.value));
    JoinShows(ls, "\n", 6);
    JoinShows(ls, "\n", 7);
  }

  /** A present first or last transaction is written as a nested object: its
      header line and three property lines, each falsy property reading
      `undefined`. */
  lemma WalletTxRefShown(w: WalletSummary, balance: Scalar, last: bool)
    requires w.activeChains.Some?
    requires TxRefOf(FirstChain(w.activeChains.value), last).Some?
    ensures var tx := TxRefOf(FirstChain(w.activeChains.value), last).value;
            var text := WalletText(w, balance).value;
            && Shows(text, ObjectHeader(TxRefName(last)))
            && Shows(text, NestedLine("block_number", OrElse(tx.blockNumber, "undefined"), true))
            && Shows(text, NestedLine("block_timestamp", OrElse(tx.blockTimestamp, "undefined"), true))
            && Shows(text, NestedLine("transaction_hash", OrElse(tx.transactionHash, "undefined"), false))
  {
    var c := FirstChain(w.activeChains.value);
    var tx := TxRefOf(c, last).value;
    var inner := TxRefLines(TxRefName(last), tx, last);
    var ls := WalletLines(w.address, balance, c);
    var text := WalletText(w, balance).value;
    var k := if last then 9 else 8;
    assert ls[k] == "            " + Join(inner, "\n");
    JoinShows(ls, "\n", k);
    assert Shows(ls[k], Join(inner, "\n")) by {
      assert ls[k] == "            " + Join(inner, "\n") + "";
    }
    ShowsWithin(text, ls[k], Join(inner, "\n"));
    JoinShowsAll(inner, "\n");
    ShowsWithin(text, Join(inner, "\n"), inner[1]);
    ShowsWithin(text, Join(inner, "\n"), inner[2]);
    ShowsWithin(text, Join(inner, "\n"), inner[3]);
    ShowsWithin(text, Join(inner, "\n"), inner[4]);
  }
}
