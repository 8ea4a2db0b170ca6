# Wallet console: address selection and console text, in Dafny

This project models the decision logic of a single-page wallet viewer. The
page connects an Ethereum wallet or takes an address typed into a search box.
It fetches that wallet's balance, NFTs, active-chain summary and transaction
history from an indexing API. It shows them as three "files" inside a
terminal-style console (`wallet.json`, `transactions.json`, `nfts.json`).

The model covers two parts:

- **The `useData` hook** (`src/hooks/useData.tsx`). It holds the strict
  address format check `^0x[a-fA-F0-9]{40}$`. It chooses between the
  connected wallet and the searched address, builds the four reads with their
  chains, and replaces the stored snapshot as a whole.
- **The console's text logic** (`src/components/Console.tsx`). This covers the
  `useTextInterval` typing animation, the NFT, transaction and wallet
  formatters, list joining, the per-tab `resultSearch`, the display fallback
  chain, and the 300 ms search debounce.

Modules, one per concern:

| module | file | models |
|---|---|---|
| `Wrappers` | wrappers.dfy | `Option` (a missing property or `undefined`) |
| `JsValues` | js_values.dfy | JavaScript truthiness, `${x}` interpolation, `x \|\| 'fallback'` |
| `Records` | records.dfy | payload shapes: NFT, transaction, wallet summary, pages |
| `WalletPattern` | wallet_pattern.dfy | the `walletRegex` format check |
| `DataHook` | data_hook.dfy | branch selection, the four reads, the snapshot, effect runs |
| `Text` | text.dfy | `Array.join`, one-property-per-line record blocks |
| `Formatters` | formatters.dfy | `formatNFT`, `formatTransactions`, the wallet block |
| `Typing` | typing.dfy | `useTextInterval` as a `(result, index)` state machine |
| `Debounce` | debounce.dfy | the 300 ms debounce over timed input changes |
| `ConsoleView` | console_view.dfy | `resultSearch`, fallbacks, typed texts |

Several upstream pieces are passed in as parameters:

- The wallet-provider lookup becomes a `ProviderOutcome` with three cases:
  - `NoProvider`: the lookup throws, so the effect stops before either branch.
  - `Denied`: the lookup returns nothing.
  - `Connected(address, chainId)`: the provider's selected address and chain.
- The four API reads together become one optional `Replies` value. `None`
  means one of the reads rejected.
- The floating-point conversions are opaque functions: wei to ETH (`toEth`,
  `Numerics.eth`) and `toISOString` (`Numerics.iso`).

A record property is a `Scalar`: `undefined`, `null`, a boolean or a string.
A formatted record is a sequence of `Field(key, value)` entries. `Block`
renders those entries the way the templates do. `FieldLine(Field(k, v),
quoted, last)` is the text line `    "k": v,`, with `v` inside quotes when
`quoted` and with no comma on the last line. `Shows(text, part)` means `part`
occurs somewhere in `text`.

The model follows the code, including where its behaviour is surprising:

- **No stale-reply guard.** The code has no guard against a slow reply for
  an old address overwriting a newer snapshot. `DataHook.Settle` applies
  replies in arrival order, and `DataHook.StaleReplyOverwrites` shows the
  stale reply winning.
- **The `"0x1"` chain default is never used.** Each branch's
  `|| "0x1"` default is unreachable: both branches require a non-empty chain.
  `DataHook.SelectTarget` states that the chosen chain is always the one
  supplied.
- **No provider stops the search too.** Without an injected provider, the
  lookup throws before either branch condition is evaluated. So the search box fetches
  nothing either (`DataHook.SelectTarget`, first clause).
- **Failed reads are not reported.** A failed read is not turned into a
  distinguishable state. The snapshot simply stays as it was
  (`DataHook.RunEffect`).
- **A 38-digit address is refused.** The address
  `0x0000000000000000000000000000000000dEaD` has only 38 hex digits, so the
  format check refuses it. Searching it fetches nothing, so the search
  state keeps whatever an earlier search stored. In a console where no
  earlier search stored data, the transactions tab falls back to the
  connected wallet's typed text or its fixed message
  (`ConsoleView.ShortAddressShowsNoTransactions`).
- **The connected wallet's NFTs are never typed out.** The console tests
  `Array.isArray` on the stored NFT response, which is a page object, so the
  typed NFT text is always empty (`ConsoleView.TypedSource`,
  `ConsoleView.ConnectedNftsNeverShown`). See "## Findings".

## Model

| member | source | states |
|---|---|---|
| `WalletPattern.TestPattern` | src/hooks/useData.tsx:41 | a left-to-right scan accepts a string iff it is `0x` followed by exactly 40 characters from `[0-9a-fA-F]` and nothing else |
| `WalletPattern.CaseOfDigitsIrrelevant` | src/hooks/useData.tsx:41 | with the `0x` prefix, lower-casing the digits never changes the verdict: mixed case is accepted and no checksum is checked |
| `WalletPattern.UpperCasePrefixRefused` | src/hooks/useData.tsx:41 | the prefix is case-sensitive: `0X…` is refused |
| `WalletPattern.SampleAddresses` | src/hooks/useData.tsx:41 | the 38-digit `0x0000000000000000000000000000000000dEaD` is refused and the 40-digit `0x000000000000000000000000000000000000dEaD` accepted |
| `DataHook.SelectTarget` | src/hooks/useData.tsx:44-78 | no provider means no fetch. With both arguments set, the search address on the given chain is chosen iff the address is well formed. With neither set, the wallet is chosen iff it is connected with a non-empty, well-formed address and a non-empty chain. With exactly one set, nothing is chosen. A chosen address always passes the format check |
| `DataHook.BranchesExclusive` | src/hooks/useData.tsx:74-77 | the wallet branch and the search branch never both apply |
| `DataHook.EmptySearchNeverFetches` | src/components/Console.tsx:185 | the console's search hook with the empty search text and chain `"0x1"` selects nothing, whatever the provider says |
| `DataHook.Requests` | src/hooks/useData.tsx:56-64 | four reads in order (balance, NFTs, active chains, transactions), all for the target address. Balance and NFTs use the selected chain. Transactions always use chain `"0x1"` in `"DESC"` order |
| `DataHook.TransactionsIgnoreSelectedChain` | src/hooks/useData.tsx:60-64 | two targets with the same address issue the same transaction read whatever their chains |
| `DataHook.Snapshot` | src/hooks/useData.tsx:65-71 | a completed fetch stores all four fields at once: the NFT page, the converted balance, the wallet summary and the transaction page's `result` |
| `DataHook.RunEffect` | src/hooks/useData.tsx:43-84 | an effect run leaves the state unchanged when nothing is selected or a read rejects. Otherwise it replaces the state with the reply's snapshot, so the state is never partially patched |
| `DataHook.LastArrivalWins` | src/hooks/useData.tsx:56-77 | after several fetches complete, the state is the snapshot of whichever completed last |
| `DataHook.RunEffectKeepsNftPageObject` | src/hooks/useData.tsx:65-71 | the stored NFT value is never a bare array: it is absent before any fetch, and every effect run keeps it absent or a page object |
| `DataHook.Settle` | src/hooks/useData.tsx:56-77 | applying completed fetches in arrival order leaves the state alone when none arrived, and otherwise leaves all four fields set |
| `DataHook.StaleReplyOverwrites` | src/hooks/useData.tsx:74-82 | for two fetches with different targets, the one for the superseded target arriving last puts its wallet summary in the state, overriding the newer target's snapshot, because no guard exists |
| `Text.JoinAt` | src/components/Console.tsx:147 | in a join, each element sits between the join of the elements before it and the join of those after it, with exactly one separator on each side |
| `Text.BlockShowsField` | src/components/Console.tsx:93-145 | every property's `    "key": value` line occurs in the record block |
| `Formatters.FormatNft` | src/components/Console.tsx:93-116 | the NFT block contains every one of the eighteen property lines, unquoted, with no comma after the last |
| `Formatters.NftFields` | src/components/Console.tsx:93-116 | `formatNFT` writes the eighteen NFT properties in the fixed template order |
| `Formatters.NftFlagsShown` | src/components/Console.tsx:108-114 | `possible_spam` and `verified_collection` render `Yes` for truthy flags and `No` otherwise |
| `Formatters.NftMinterShown` | src/components/Console.tsx:103-105 | the minter line shows the metadata object's `minter_address`, `N/A` for falsy metadata, and `undefined` for truthy metadata that is not an object |
| `Formatters.TransactionFields` | src/components/Console.tsx:124-145 | `formatTransactions` writes the eighteen transaction properties in the fixed template order |
| `Formatters.FormatTransaction` | src/components/Console.tsx:124-145 | the transaction block contains every one of the eighteen property lines, with the values in quotes and no comma after the last |
| `Formatters.TransactionStatusShown` | src/components/Console.tsx:139 | the status line reads `Success` when `receipt_status` is the string `"1"` and `Failed` for every other value |
| `Formatters.TransactionLabelsShown` | src/components/Console.tsx:130-132 | a missing or empty from/to label renders `N/A`; a set label renders as is |
| `Formatters.WalletText` | src/components/Console.tsx:56-81 | the wallet block fails (throws) exactly when `active_chains` is missing |
| `Formatters.WalletNullLines` | src/components/Console.tsx:64-77 | an absent first/last transaction, or no active chain at all, renders the literal `"first_transaction": null,` / `"last_transaction": null,` line |
| `Formatters.WalletChainLinesShown` | src/components/Console.tsx:61-63 | the `chain` and `chain_id` lines show the first active chain's value, or `undefined` when there is no active chain or the value is falsy |
| `Formatters.WalletTxRefShown` | src/components/Console.tsx:64-77 | a present first (or last) transaction is written as a nested object: its header line and the `block_number`, `block_timestamp` and `transaction_hash` lines, each `undefined` for a falsy value |
| `Typing.Tick` | src/components/Console.tsx:25-30 | at or past the end a tick changes nothing. Otherwise it appends exactly the character at the index, keeps what was shown, advances the index by one, and keeps the invariant `result == text[..index]` |
| `Typing.RunAtEndIsFixed` | src/components/Console.tsx:25 | once `index >= \|text\|`, any number of ticks leaves the state unchanged |
| `Typing.RunAppends` | src/components/Console.tsx:19-35 | `n` ticks append the next `n` characters of the text, or fewer when it runs out, to whatever was shown before, and advance the index by as much |
| `Typing.FullTextAfterLength` | src/components/Console.tsx:19-35 | from the initial state, `\|text\|` ticks show exactly the full text |
| `Typing.TextChangeKeepsPrefix` | src/components/Console.tsx:20-35 | when the text changes mid-animation, the shown prefix of the old text is kept and the rest of the new text is appended: the result is never reset |
| `Typing.ShorterTextFreezes` | src/components/Console.tsx:25 | when the new text is no longer than the index, the display stays as it was |
| `Debounce.Commits` | src/components/Console.tsx:176-183 | there are never more commits than input changes, and each commit carries a typed value 300 ms after it was typed |
| `Debounce.CommitsAreQuiet` | src/components/Console.tsx:176-183 | no input change falls in the 300 ms before a commit |
| `Debounce.FiringKeystrokesCommit` | src/components/Console.tsx:176-183 | every input change not followed by another within 300 ms commits its value |
| `Debounce.LastKeystrokeCommitsLast` | src/components/Console.tsx:176-183 | the last input change always commits, and its commit is the last one |
| `Debounce.BurstCommitsOnce` | src/components/Console.tsx:176-183 | changes at 0, 50, 100 and 350 ms give one commit, at 650 ms, with the last value |
| `Debounce.SettlesOnLastValue` | src/components/Console.tsx:173-185 | once the last deadline has passed, the committed search text is the last value typed |
| `ConsoleView.ListText` | src/components/Console.tsx:147-149 | a value that is not an array gives `""`; an array's text shows every record's formatted block |
| `ConsoleView.ListTextAt` | src/components/Console.tsx:147-149 | a record list is formatted record by record, in order, separated by a blank line |
| `ConsoleView.ListTextEmpty` | src/components/Console.tsx:147 | a list text is empty exactly when the value is not an array or the array is empty |
| `ConsoleView.TransactionsText` | src/components/Console.tsx:147 | the connected wallet's transaction text is `""` when there is no transaction array, and otherwise shows every transaction's block |
| `ConsoleView.ResultSearch` | src/components/Console.tsx:192-240 | per tab, the search result is `""` exactly when that tab's data is missing: no NFT `result` array or an empty one, no transaction array or an empty one, no wallet, or a wallet without `active_chains`. A non-empty result shows every NFT block of the page's `result` array, or every transaction block, or is exactly the rendered wallet block |
| `ConsoleView.Shown` | src/components/Console.tsx:277-279 | the console never shows an empty body. It shows the search result if non-empty, else the typed text if non-empty, else the tab's fixed message |
| `ConsoleView.MissingSearchDataFallsBack` | src/components/Console.tsx:277-279 | when the active tab's search data is missing, the typed text is shown, or the fixed message when nothing has been typed yet |
| `ConsoleView.ShortAddressShowsNoTransactions` | src/components/Console.tsx:185-279 | searching the 38-digit address fetches nothing and leaves any search state unchanged. In a console where no earlier search stored data, and when no transaction text has been typed, the transactions tab shows "Don't have transactions…" |
| `ConsoleView.WalletTextEffect` | src/components/Console.tsx:51-85 | the typed wallet text is replaced by the rendered, non-empty wallet block only when a wallet with `active_chains` is present; otherwise it keeps its previous value |
| `ConsoleView.NftTextAsWritten` | src/components/Console.tsx:149 | the connected wallet's NFT text is non-empty exactly when the stored value is a non-empty bare array |
| `ConsoleView.NftText` | src/components/Console.tsx:195-198 | the corrected NFT text is non-empty exactly when the stored value is a page object whose `result` is a non-empty array, and it then shows every NFT's block |
| `ConsoleView.NftTextAsWrittenIgnoresNfts` | src/components/Console.tsx:149 | the as-written NFT text is empty before any fetch and for the snapshot of every reply, since the hook stores the page object |
| `ConsoleView.NftTextDiscrepancy` | src/components/Console.tsx:149 | for a reply whose page holds one NFT, the as-written text is empty while the corrected text is that NFT's block |
| `ConsoleView.NftTextListsEveryNft` | src/components/Console.tsx:195-198 | the corrected NFT text shows every NFT's block of the page |
| `ConsoleView.TypedSource` | src/components/Console.tsx:147-152 | the wallet tab types the kept wallet text, the transactions tab types every formatted transaction of the connected wallet's transaction array and nothing without one, and the NFT tab types nothing while the stored NFT value is a page object |
| `ConsoleView.TypedTextShown` | src/components/Console.tsx:147-152 | without a search result, a tab shows its fixed message before typing starts and the whole typed text after `\|text\|` ticks |
| `ConsoleView.ConnectedNftsNeverShown` | src/components/Console.tsx:149-150 | without a search result, the NFT tab shows "No NFTs found…" however many ticks have run, while the stored NFT value is a page object |

## Left out

- The wallet-provider lookup (`src/hooks/getAddress.tsx`): browser provider access, `enable()`, the cookie and the logging are I/O. Only their outcome is modelled, as `ProviderOutcome`.
- The indexing-API client and its start-up (`src/components/Moralis/MoralisStart.tsx`): network calls and library initialisation. The four replies are one abstract `Replies` value.
- Wei-to-ETH division, `toFixed(18)` and `toISOString`: floating point and a foreign date library. They are opaque parameters. The `RangeError` that `toISOString` throws for an invalid timestamp is not modelled.
- Payload properties that are JavaScript numbers: they are modelled as strings only. For example, a numeric `receipt_status` of `1` would render `Failed` in the code, and the model has no such value.
- A record in an NFT or transaction list that is not an object (so that reading its properties throws) is not modelled.
- Async ordering of the four awaits and overlapping effect runs: these are concurrency. Only the order in which completed fetches call `setData` is modelled (`DataHook.Settle`).
- Real timers: the debounce uses an abstract millisecond clock, and the typing effect uses abstract ticks. The model assumes one append per effect run. It leaves out an interval that fires twice before the effect is re-run, which would append the same character twice.
- React's skipping of effects whose dependencies did not change, and of state updates to an equal value.
- The `resultBalance` state (set but never shown), JSX rendering, CSS classes, tab clicks, the green-button toggle, the wallet-connection widget configuration (`src/components/WalletConnect/Web3ModalProvider.tsx`) and the presentational files.
- Formatters.NftFlagsShown: states that the expected line occurs in the text, not that no other line contains the same characters, because property values are free text.
- Formatters.NftMinterShown: same one-directional `Shows` form, for the same reason.
- Formatters.TransactionStatusShown: same one-directional `Shows` form, for the same reason.
- Formatters.TransactionLabelsShown: same one-directional `Shows` form, for the same reason.
- Formatters.WalletNullLines: same one-directional `Shows` form, for the same reason.
- Formatters.WalletChainLinesShown: same one-directional `Shows` form, for the same reason.
- Formatters.WalletTxRefShown: same one-directional `Shows` form, for the same reason.
- Formatters.FormatNft: same one-directional `Shows` form; the exact layout is `Block` over `NftFields`.
- Formatters.FormatTransaction: same one-directional `Shows` form; the exact layout is `Block` over `TransactionFields`.
- ConsoleView.ListText: same one-directional `Shows` form; the exact order and separators are stated by `ConsoleView.ListTextAt`.
- ConsoleView.TransactionsText: same one-directional `Shows` form for the transaction blocks, for the same reason as `ConsoleView.ListText`.
- ConsoleView.ResultSearch: the NFT and transaction lists are stated in the same one-directional `Shows` form; the wallet tab's result is stated exactly.
- Typing.Tick: text is a sequence of Unicode characters, while `text.length` and `text[index]` count UTF-16 code units. Tick counts (`Typing.RunAppends`, `Typing.FullTextAfterLength`) hold only for text whose characters all lie in the Basic Multilingual Plane. A character outside it takes two ticks in the program, with a lone surrogate shown in between.

## Findings

| source | as written | input that shows it | evidently intended | confidence | as-written member | corrected member |
|---|---|---|---|---|---|---|
| src/components/Console.tsx:149 | `Array.isArray(resultNFTs)` tests the raw NFT response, which is a page object, so the connected wallet's NFT text is always `""` and its NFTs never appear | a connected wallet whose NFT page holds one NFT | format the page's `result` list, as `resultSearch` does at line 195 | medium, not executed; it rests on the NFT response being a page object, which line 195 also assumes | `ConsoleView.NftTextAsWritten` (shown by `ConsoleView.NftTextDiscrepancy`) | `ConsoleView.NftText` (proved by `ConsoleView.NftTextListsEveryNft`; used by `ConsoleView.ResultSearch`) |
