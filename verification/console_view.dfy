/**
 * The console component's text logic: the typed texts fed from the
 * connected wallet's data, the search result for the active tab, and the
 * fallback chain that decides what the console shows.
 */
module ConsoleView {
  import opened Wrappers
  import opened JsValues
  import opened Records
  import opened Text
  import opened Formatters
  import opened WalletPattern
  import opened DataHook
  import opened Typing

  /** The three file tabs: `wallet.json`, `transactions.json`, `nfts.json`. */
  datatype Tab = WalletTab | TransactionsTab | NftsTab

  /** Records in a list are separated by a blank line. */
  const RecordSeparator := "\n\n"

  /** `xs.map(fmt)`. */
  function Formatted<T>(xs: seq<T>, fmt: T -> string): (r: seq<string>)
    ensures |r| == |xs|
    ensures forall i :: 0 <= i < |xs| ==> r[i] == fmt(xs[i])
  {
    seq(|xs|, i requires 0 <= i < |xs| => fmt(xs[i]))
  }

  /** `Array.isArray(l) ? l.map(fmt).join('\n\n') : ''`. */
  function ListText<T>(l: Listing<T>, fmt: T -> string): (r: string)
    ensures l.NotArray? ==> r == ""
    ensures l.Items? ==> forall i :: 0 <= i < |l.items| ==> Shows(r, fmt(l.items[i]))
  {
    match l
    case NotArray => ""
    case Items(xs) =>
      JoinShowsAll(Formatted(xs, fmt), RecordSeparator);
      Join(Formatted(xs, fmt), RecordSeparator)
  }

  /** Records are formatted one by one and kept in order: record `i`'s text
      sits between the text of the records before it and of those after it,
      one separator apart. */
  lemma ListTextAt<T>(xs: seq<T>, fmt: T -> string, i: nat)
    requires i < |xs|
    ensures ListText(Items(xs), fmt) ==
              ListText(Items(xs[..i]), fmt) + (if i == 0 then "" else RecordSeparator) + fmt(xs[i])
              + (if i == |xs| - 1 then "" else RecordSeparator + ListText(Items(xs[i + 1..]), fmt))
  {
    var fs := Formatted(xs, fmt);
    JoinAt(fs, RecordSeparator, i);
    assert fs[..i] == Formatted(xs[..i], fmt);
    assert fs[i + 1..] == Formatted(xs[i + 1..], fmt);
  }

  /** A list text is empty exactly when there is no list or no record,
      provided every record's text is non-empty. */
  lemma ListTextEmpty<T>(l: Listing<T>, fmt: T -> string)
    requires forall x :: fmt(x) != ""
    ensures ListText(l, fmt) == "" <==> l.NotArray? || |l.items| == 0
  {
    if l.Items? && |l.items| > 0 {
      ListTextAt(l.items, fmt, 0);
      assert fmt(l.items[0]) != "";
    }
  }

  /** Every NFT block is non-empty. */
  lemma NftBlocksNonEmpty()
    ensures forall n :: FormatNft(n) != ""
  {
  }

  /** Every transaction block is non-empty. */
  lemma TransactionBlocksNonEmpty(num: Numerics)
    ensures forall t :: FormatTransaction(t, num) != ""
  {
  }

  function BalanceValue(b: Option<string>): Scalar {
    match b
    case Some(s) => Str(s)
    case None => Undefined
  }

  /** `resultSearch()` for the search hook's snapshot: the active tab's
      records, or `""` when its data is missing (the thrown error is caught). */
  function ResultSearch(tab: Tab, d: Data, num: Numerics): (r: string)
    ensures tab.NftsTab? ==>
              (r == "" <==> d.nft.None? || d.nft.value.ArrayValue? || d.nft.value.page.result.NotArray?
                            || |d.nft.value.page.result.items| == 0)
    ensures tab.TransactionsTab? ==>
              (r == "" <==> d.transactions.None? || d.transactions.value.NotArray? || |d.transactions.value.items| == 0)
    ensures tab.WalletTab? ==> (r == "" <==> d.wallet.None? || d.wallet.value.activeChains.None?)
    ensures tab.NftsTab? && d.nft.Some? && d.nft.value.PageObject? && d.nft.value.page.result.Items? ==>
              forall i :: 0 <= i < |d.nft.value.page.result.items| ==> Shows(r, FormatNft(d.nft.value.page.result.items[i]))
    ensures tab.TransactionsTab? && d.transactions.Some? && d.transactions.value.Items? ==>
              forall i :: 0 <= i < |d.transactions.value.items| ==>
                Shows(r, FormatTransaction(d.transactions.value.items[i], num))
    ensures tab.WalletTab? && d.wallet.Some? && d.wallet.value.activeChains.Some? ==>
              r == WalletText(d.wallet.value, BalanceValue(d.balance)).value
  {
    TransactionBlocksNonEmpty(num);
    match tab
    case NftsTab => NftText(d.nft)
    case WalletTab =>
      if d.wallet.None? then ""
      else WalletText(d.wallet.value, BalanceValue(d.balance)).GetOr("")
    case TransactionsTab =>
      if d.transactions.None? then ""
      else
        ListTextEmpty(d.transactions.value, t => FormatTransaction(t, num));
        ListText(d.transactions.value, t => FormatTransaction(t, num))
  }

  const NoNftsMessage := "No NFTs found.\nTry entering a different wallet address in the search\n\nThe address of the wallets can be taken from the website https://etherscan.io"
  const LoadingMessage := "loading information..."
  const NoTransactionsMessage := "Don't have transactions.\nTry entering a different wallet address in the search\n\nThe address of the wallets can be taken from the website https://etherscan.io"

  function Fallback(tab: Tab): string {
    match tab
    case NftsTab => NoNftsMessage
    case WalletTab => LoadingMessage
    case TransactionsTab => NoTransactionsMessage
  }

  /** What the console body shows for the active tab:
      `resultSearch() || typed || fallback`. */
  function Shown(tab: Tab, search: Data, typed: string, num: Numerics): (r: string)
    ensures r != ""
    ensures ResultSearch(tab, search, num) != "" ==> r == ResultSearch(tab, search, num)
    ensures ResultSearch(tab, search, num) == "" && typed != "" ==> r == typed
    ensures ResultSearch(tab, search, num) == "" && typed == "" ==> r == Fallback(tab)
  {
    var found := ResultSearch(tab, search, num);
    if found != "" then found else if typed != "" then typed else Fallback(tab)
  }

  /** Missing search data gives way to the typed text, then the fallback. */
  lemma MissingSearchDataFallsBack(tab: Tab, search: Data, typed: string, num: Numerics)
    requires tab.TransactionsTab? ==> search.transactions.None?
    requires tab.NftsTab? ==> search.nft.None?
    requires tab.WalletTab? ==> search.wallet.None?
    ensures Shown(tab, search, typed, num) == if typed != "" then typed else Fallback(tab)
  {
  }

  /** Searching a 38-digit address fetches nothing, so the search state keeps
      whatever an earlier search stored. In a console where no earlier search
      stored data, the transactions tab then shows its fixed message when no
      transaction text has been typed. */
  lemma ShortAddressShowsNoTransactions(d: Data, provider: ProviderOutcome, reply: Option<Replies>,
                                        toEth: string -> string, num: Numerics)
    ensures RunEffect(d, Some("0x0000000000000000000000000000000000dEaD"), Some(PrimaryChain),
                      provider, reply, toEth) == d
    ensures var e := RunEffect(Empty, Some("0x0000000000000000000000000000000000dEaD"), Some(PrimaryChain),
                               provider, reply, toEth);
            e == Empty && Shown(TransactionsTab, e, "", num) == NoTransactionsMessage
  {
    SampleAddresses();
  }

  /** The connected wallet's transaction text that the typing effect types out. */
  function TransactionsText(tx: Option<Listing<Transaction>>, num: Numerics): (r: string)
    ensures tx.None? || tx.value.NotArray? ==> r == ""
    ensures tx.Some? && tx.value.Items? ==>
              forall i :: 0 <= i < |tx.value.items| ==> Shows(r, FormatTransaction(tx.value.items[i], num))
  {
    match tx
    case None => ""
    case Some(l) => ListText(l, t => FormatTransaction(t, num))
  }

  /** The effect that keeps the typed wallet text: it is replaced only when
      a wallet is present and its template renders; otherwise it keeps its
      previous value. */
  function WalletTextEffect(previous: string, wallet: Option<WalletSummary>, balance: Option<string>): (r: string)
    ensures wallet.None? ==> r == previous
    ensures wallet.Some? && wallet.value.activeChains.None? ==> r == previous
    ensures wallet.Some? && wallet.value.activeChains.Some? ==>
              r == WalletText(wallet.value, BalanceValue(balance)).value && r != ""
  {
    match wallet
    case None => previous
    case Some(w) =>
      match WalletText(w, BalanceValue(balance))
      case None => previous
      case Some(text) => text
  }

  /** The connected wallet's NFT text as the console computes it:
      `Array.isArray(nft) ? nft.map(formatNFT).join('\n\n') : ''` applied to
      the stored NFT value. */
  function NftTextAsWritten(v: Option<NftValue>): (r: string)
    ensures r != "" <==> v.Some? && v.value.ArrayValue? && |v.value.items| > 0
  {
    NftBlocksNonEmpty();
    match v
    case None => ""
    case Some(ArrayValue(xs)) =>
      ListTextEmpty(Items(xs), FormatNft);
      ListText(Items(xs), FormatNft)
    case Some(PageObject(_)) => ""
  }

  /** The NFT text formatting the page's `result` list, as the search path
      does; `result` of a bare array is `undefined`, which is not an array. */
  function NftText(v: Option<NftValue>): (r: string)
    ensures r != "" <==> v.Some? && v.value.PageObject? && v.value.page.result.Items?
                         && |v.value.page.result.items| > 0
    ensures v.Some? && v.value.PageObject? && v.value.page.result.Items? ==>
              forall i :: 0 <= i < |v.value.page.result.items| ==> Shows(r, FormatNft(v.value.page.result.items[i]))
  {
    NftBlocksNonEmpty();
    match v
    case Some(PageObject(page)) =>
      ListTextEmpty(page.result, FormatNft);
      ListText(page.result, FormatNft)
    case _ => ""
  }

  /** The hook stores the raw NFT response, a page object, so as written the
      NFT text is empty before any fetch and after every fetch. */
  lemma NftTextAsWrittenIgnoresNfts(r: Replies, toEth: string -> string)
    ensures NftTextAsWritten(Empty.nft) == ""
    ensures NftTextAsWritten(Snapshot(r, toEth).nft) == ""
  {
  }

  /** A fetch whose NFT page holds one NFT: the as-written text is empty,
      the corrected text is that NFT's block. */
  lemma NftTextDiscrepancy(r: Replies, toEth: string -> string, n: Nft)
    requires r.nft == NftPage(Items([n]))
    ensures NftTextAsWritten(Snapshot(r, toEth).nft) == ""
    ensures NftText(Snapshot(r, toEth).nft) == FormatNft(n) != ""
  {
    assert Formatted([n], FormatNft) == [FormatNft(n)];
  }

  /** The corrected NFT text lists each NFT of the page, in order. */
  lemma NftTextListsEveryNft(page: NftPage, i: nat)
    requires page.result.Items? && i < |page.result.items|
    ensures Shows(NftText(Some(PageObject(page))), FormatNft(page.result.items[i]))
  {
    var xs := page.result.items;
    ListTextAt(xs, FormatNft, i);
    var pre := ListText(Items(xs[..i]), FormatNft) + (if i == 0 then "" else RecordSeparator);
    var post := if i == |xs| - 1 then "" else RecordSeparator + ListText(Items(xs[i + 1..]), FormatNft);
    assert NftText(Some(PageObject(page))) == pre + FormatNft(xs[i]) + post;
  }

  /** The text a tab's typing effect animates, from the connected wallet's
      snapshot; `walletText` is the state kept by `WalletTextEffect`. */
  function TypedSource(tab: Tab, wallet: Data, walletText: string, num: Numerics): (r: string)
    ensures tab.NftsTab? && NftIsPageObject(wallet) ==> r == ""
    ensures tab.WalletTab? ==> r == walletText
    ensures tab.TransactionsTab? && (wallet.transactions.None? || wallet.transactions.value.NotArray?) ==> r == ""
    ensures tab.TransactionsTab? && wallet.transactions.Some? && wallet.transactions.value.Items? ==>
              forall i :: 0 <= i < |wallet.transactions.value.items| ==>
                Shows(r, FormatTransaction(wallet.transactions.value.items[i], num))
  {
    match tab
    case NftsTab => NftTextAsWritten(wallet.nft)
    case WalletTab => walletText
    case TransactionsTab => TransactionsText(wallet.transactions, num)
  }

  /** Without a search result, the tab shows its fixed message before the
      first character is typed, and the whole typed text once the typing
      effect has run for its length. */
  lemma TypedTextShown(tab: Tab, wallet: Data, walletText: string, search: Data, num: Numerics)
    requires ResultSearch(tab, search, num) == ""
    ensures var text := TypedSource(tab, wallet, walletText, num);
            && Shown(tab, search, Run(Init, text, 0).result, num) == Fallback(tab)
            && (text != "" ==> Shown(tab, search, Run(Init, text, |text|).result, num) == text)
  {
    FullTextAfterLength(TypedSource(tab, wallet, walletText, num));
  }

  /** As written, without a search result the NFT tab shows "No NFTs
      found…" however long the typing effect runs, because the stored NFT
      value is a page object. */
  lemma ConnectedNftsNeverShown(wallet: Data, walletText: string, search: Data, num: Numerics, n: nat)
    requires NftIsPageObject(wallet)
    requires ResultSearch(NftsTab, search, num) == ""
    ensures Shown(NftsTab, search, Run(Init, TypedSource(NftsTab, wallet, walletText, num), n).result, num)
              == NoNftsMessage
  {
    RunAtEndIsFixed(Init, TypedSource(NftsTab, wallet, walletText, num), n);
  }
}
