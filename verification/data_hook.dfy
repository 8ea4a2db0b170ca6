/**
 * The `useData` hook: which address (if any) one run of its effect queries,
 * which four reads it issues, and how the stored snapshot changes.
 */
module DataHook {
  import opened Wrappers
  import opened JsValues
  import opened Records
  import opened WalletPattern

  const PrimaryChain := "0x1"
  const TransactionOrder := "DESC"

  /** What awaiting the wallet-provider lookup yields. `NoProvider`: the
      lookup itself throws (no injected provider), so the effect stops before
      either branch. `Denied`: the user refused access and the lookup returned
      nothing. `Connected`: the provider's selected address and chain id. */
  datatype ProviderOutcome =
    | NoProvider
    | Denied
    | Connected(address: Option<string>, chainId: Option<string>)

  /** The `{chain, address}` pair one effect run queries. */
  datatype Target = Target(chain: string, address: string)

  /** The wallet branch's guard: no arguments, and a connected wallet whose
      address and chain are both set and whose address has the right format. */
  predicate WalletBranch(address: Option<string>, chainId: Option<string>, provider: ProviderOutcome) {
    && !Given(address) && !Given(chainId)
    && provider.Connected?
    && Given(provider.address) && Given(provider.chainId)
    && IsAddress(provider.address.value)
  }

  /** The search branch's guard: both arguments set and the address well formed. */
  predicate SearchBranch(address: Option<string>, chainId: Option<string>) {
    Given(address) && Given(chainId) && IsAddress(address.value)
  }

  /** One run of the effect's selection: the wallet branch first, then the
      search branch, else nothing. Both branches build their chain with a
      `|| "0x1"` default. */
  function SelectTarget(address: Option<string>, chainId: Option<string>, provider: ProviderOutcome): (r: Option<Target>)
    ensures provider.NoProvider? ==> r.None?
    ensures r.Some? ==> IsAddress(r.value.address) && r.value.chain != ""
    ensures !provider.NoProvider? && Given(address) && Given(chainId) ==>
              (r.Some? <==> IsAddress(address.value)) &&
              (r.Some? ==> r.value == Target(chainId.value, address.value))
    ensures !Given(address) && !Given(chainId) ==>
              (r.Some? <==> provider.Connected? && Given(provider.address) && Given(provider.chainId)
                            && IsAddress(provider.address.value)) &&
              (r.Some? ==> r.value == Target(provider.chainId.value, provider.address.value))
    ensures Given(address) != Given(chainId) ==> r.None?
  {
    if provider.NoProvider? then None
    else if WalletBranch(address, chainId, provider) then
      Some(Target(OrDefault(provider.chainId, PrimaryChain), provider.address.value))
    else if SearchBranch(address, chainId) then
      Some(Target(OrDefault(chainId, PrimaryChain), address.value))
    else None
  }

  /** The two branches never both apply. */
  lemma BranchesExclusive(address: Option<string>, chainId: Option<string>, provider: ProviderOutcome)
    ensures !(WalletBranch(address, chainId, provider) && SearchBranch(address, chainId))
  {
  }

  /** The console's search hook is called with the debounced text and chain
      `"0x1"`; while the search box is empty it never fetches. */
  lemma EmptySearchNeverFetches(provider: ProviderOutcome)
    ensures SelectTarget(Some(""), Some(PrimaryChain), provider).None?
  {
  }

  /** One read against the indexing API. */
  datatype Request =
    | NativeBalance(chain: string, address: string)
    | WalletNfts(chain: string, address: string)
    | ActiveChains(address: string)
    | WalletTransactions(chain: string, order: string, address: string)

  /** The reads issued for a target, in the order they are awaited. */
  function Requests(t: Target): (rs: seq<Request>)
    ensures |rs| == 4
    ensures rs[0].NativeBalance? && rs[1].WalletNfts? && rs[2].ActiveChains? && rs[3].WalletTransactions?
    ensures forall i :: 0 <= i < |rs| ==> rs[i].address == t.address
    ensures forall i :: 0 <= i < |rs| && (rs[i].NativeBalance? || rs[i].WalletNfts?) ==> rs[i].chain == t.chain
    ensures forall i :: 0 <= i < |rs| && rs[i].WalletTransactions? ==>
              rs[i].chain == PrimaryChain && rs[i].order == TransactionOrder
  {
    [ NativeBalance(t.chain, t.address),
      WalletNfts(t.chain, t.address),
      ActiveChains(t.address),
      WalletTransactions(PrimaryChain, TransactionOrder, t.address) ]
  }

  /** Transactions are read on the primary chain whatever chain was selected. */
  lemma TransactionsIgnoreSelectedChain(t: Target, u: Target)
    requires t.address == u.address
    ensures Requests(t)[3] == Requests(u)[3]
  {
  }

  /** The hook's state: each field is `None` until the first completed fetch. */
  datatype Data = Data(
    nft: Option<NftValue>,
    balance: Option<string>,
    wallet: Option<WalletSummary>,
    transactions: Option<Listing<Transaction>>)

  /** The state before any fetch completes. */
  const Empty := Data(None, None, None, None)

  predicate IsComplete(d: Data) {
    d.nft.Some? && d.balance.Some? && d.wallet.Some? && d.transactions.Some?
  }

  /** The four raw responses of one fetch. `balanceWei` is the raw balance
      string; `toEth` (the division by 10**18) is left abstract. */
  datatype Replies = Replies(balanceWei: string, nft: NftPage, wallet: WalletSummary, transactions: TxPage)

  /** The snapshot `setData` stores once all four reads have resolved: the
      raw NFT response (a page object), the converted balance, the wallet
      summary and the transaction page's `result` list. */
  function Snapshot(r: Replies, toEth: string -> string): (d: Data)
    ensures IsComplete(d)
    ensures d.nft == Some(PageObject(r.nft)) && d.wallet == Some(r.wallet)
    ensures d.transactions == Some(r.transactions.result)
    ensures d.balance == Some(toEth(r.balanceWei))
  {
    Data(Some(PageObject(r.nft)), Some(toEth(r.balanceWei)), Some(r.wallet), Some(r.transactions.result))
  }

  /** One run of the effect. `reply` is `None` when one of the four reads
      rejects; the snapshot is then left as it was. */
  function RunEffect(d: Data, address: Option<string>, chainId: Option<string>, provider: ProviderOutcome,
                     reply: Option<Replies>, toEth: string -> string): (d': Data)
    ensures SelectTarget(address, chainId, provider).None? ==> d' == d
    ensures reply.None? ==> d' == d
    ensures SelectTarget(address, chainId, provider).Some? && reply.Some? ==> d' == Snapshot(reply.value, toEth)
    ensures d' == d || IsComplete(d')
  {
    match SelectTarget(address, chainId, provider)
    case None => d
    case Some(_) =>
      match reply
      case None => d
      case Some(r) => Snapshot(r, toEth)
  }

  /** The stored NFT value is never a bare array: it is absent or the raw
      page object. */
  predicate NftIsPageObject(d: Data) {
    d.nft.None? || d.nft.value.PageObject?
  }

  /** The NFT value is absent before any fetch, and every effect run keeps
      it absent or a page object. */
  lemma RunEffectKeepsNftPageObject(d: Data, address: Option<string>, chainId: Option<string>,
                                    provider: ProviderOutcome, reply: Option<Replies>, toEth: string -> string)
    requires NftIsPageObject(d)
    ensures Empty.nft.None? && NftIsPageObject(Empty)
    ensures NftIsPageObject(RunEffect(d, address, chainId, provider, reply, toEth))
  {
  }

  /** One fetch cycle: the target it was started for and its replies. */
  datatype Fetch = Fetch(target: Target, replies: Replies)

  /** Completed fetches call `setData` in the order they finish. The target
      a fetch was started for is never consulted. */
  function Settle(d: Data, arrivals: seq<Fetch>, toEth: string -> string): (d': Data)
    ensures |arrivals| == 0 ==> d' == d
    ensures |arrivals| > 0 ==> IsComplete(d')
    decreases |arrivals|
  {
    if |arrivals| == 0 then d else Settle(Snapshot(arrivals[0].replies, toEth), arrivals[1..], toEth)
  }

  /** Whatever fetch finishes last decides the snapshot, whichever target it
      was started for. */
  lemma {:induction false} LastArrivalWins(d: Data, arrivals: seq<Fetch>, toEth: string -> string)
    requires |arrivals| > 0
    ensures Settle(d, arrivals, toEth) == Snapshot(arrivals[|arrivals| - 1].replies, toEth)
    decreases |arrivals|
  {
    if |arrivals| > 1 {
      LastArrivalWins(Snapshot(arrivals[0].replies, toEth), arrivals[1..], toEth);
    }
  }

  /** Two fetches started in the order `older`, `newer` for different
      targets. When the older one finishes last, the state holds the wallet
      fetched for the superseded target, although the newest request was
      for `newer.target`. */
  lemma StaleReplyOverwrites(d: Data, older: Fetch, newer: Fetch, toEth: string -> string)
    requires older.target != newer.target
    ensures Settle(d, [newer, older], toEth).wallet == Some(older.replies.wallet)
    ensures older.replies.wallet != newer.replies.wallet ==>
              Settle(d, [newer, older], toEth) != Snapshot(newer.replies, toEth)
  {
    LastArrivalWins(d, [newer, older], toEth);
  }
}
