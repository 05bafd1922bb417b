# monadfrens trade core, modelled in Dafny

This project models the trading and portfolio logic of the monadfrens app. The app is a Next.js front end for a limit-orderbook exchange on Monad.

**Trade hook (`hooks/useTrade.ts`, module `UseTrade`)**
- The orderbook's `getMarketParams()` result is decoded into an eleven-field record.
- A precision is turned into a decimal exponent (`log10BigNumber`).
- The entered amounts become `size`, `minAmountOut` and the attached native `value`, with the rules of each side.
- The gas limit is the simulated gas plus 20 %, capped at 2,800,000. A failed simulation falls back to the cap.
- The fee fields are either EIP-1559 or a legacy gas price.
- `trade` runs its session checks, sends the sell-side `approve`, encodes the order and sends it.
  - Every read and send is a `Call` appended to the hook's log.
  - The chain's answers are oracle values in a `Chain` record.
  - The class `TradeHook` holds the hook's state and is proved against the functions `TradeRun` and `EstimateRun`.

**Order-estimate hook (`hooks/useOrderEstimate.tsx`, module `OrderEstimate`)**
- The effect is modelled as three events over the hook's state fields.
  - `Start`: a new run, with its validity guard and the estimator request.
  - `Cleanup`: the run's `ignore` flag is set.
  - `Complete`: the estimator settles, and each write is guarded by the flag.

**Home screen searches (`components/Home`, modules `MarketsSearch`, `TrendingMarkets`, `Api`)**
- The market search filter, its choice of main and other token, and the result projection.
- The trending-pairs projection.
- The shared handling of the HTTP status and of a missing `data.data`.

**Portfolio and PnL (`components/UserData`, modules `UserPortfolio`, `UserPnL`, `PnlSummary`)**
- The portfolio: a merge by token address, the dust filter and the descending sort.
- The PnL aggregation per user and token, and its percentages.
- The per-user totals table and its sort.
- The loops are methods over the map, kept as an insertion-order key list plus a `map`. They are proved against fold functions.
- What those folds compute is proved separately: one entry per key, first-occurrence metadata, and sums of the amounts.

**Helper modules**
- `Units`: decimal strings and the `ethers.utils.parseUnits` conversion.
- `Text`: `trim`, `toLowerCase`, `includes`.
- `Sorting`: a sort by a real key, largest first.
- `Wrappers`: `Option` and `Result`.

**Modelling choices**
- Amounts that JavaScript holds as IEEE doubles (balances, PnL) are mathematical reals.
- Amounts the contracts see are unbounded naturals.
- Fetches, Firestore reads and RPC calls are parameters: a response sequence, a function from a wallet to its response, or the `Chain` record.

**Behaviour of the code worth knowing**
- `trade` passes the typed amount straight to `parseUnits`. As in ethers v5, a fraction longer than the asset's decimals fails with `FractionExceedsDecimals`; nothing truncates it first.
- A failed `getFeeData` in `trade` fails the trade with its error. Only a missing `gasPrice` field is read as 0 (hooks/useTrade.ts:247-248).
- `trade` makes no check for a non-positive amount. Before anything is sent, the trade fails only on a session check, the market read, the decoding of its result, or a `parseUnits` / `log10BigNumber` conversion (`Prepare`, `TradeRunOutcome`).
- `trade` returns the hash as soon as the transaction is sent; it does not wait for a receipt.
- In `trade`, the fee branch that adds no fee field (hooks/useTrade.ts:265) cannot be reached. `gasPriceValue` is always a BigNumber object, which is truthy. `SelectFeeFields` therefore returns EIP-1559 fields or a legacy price, never nothing.

## Model

| member | source | states |
|---|---|---|
| UseTrade.FetchMarketParams | hooks/useTrade.ts:10-25 | decoding succeeds exactly on a well-typed eleven-value tuple; positions 0..10 become pricePrecision … makerFeeBps in order; other shapes give the decoding error |
| UseTrade.FetchMarketParamsOfTuple | hooks/useTrade.ts:13-25 | decoding the contract's layout of any record gives that record back |
| UseTrade.Log10 | hooks/useTrade.ts:28-34 | fails with "Log10 of zero is undefined" exactly on 0; otherwise returns k with 10^k <= n < 10^(k+1) |
| UseTrade.Log10OfPow10 | hooks/useTrade.ts:28-34 | a precision 10^k has exponent k |
| UseTrade.NativeValue | hooks/useTrade.ts:169-191 | a native value is attached only when the input asset (quote for buy, base for sell) is the zero address, and then it is the amount in that asset's decimals; otherwise it is undefined |
| UseTrade.DeriveOrder | hooks/useTrade.ts:160-191 | succeeds iff every conversion does; size is the amount in log10(price precision) decimals for a buy or log10(size precision) for a sell, minAmountOut is the estimate in the output asset's decimals (base for buy, quote for sell), value is NativeValue |
| UseTrade.DeriveOrderZeroPrecision | hooks/useTrade.ts:161-164 | a zero precision stops the trade with the logarithm's error |
| UseTrade.TradeCalldata | hooks/useTrade.ts:219-223 | the calldata names the side's entry point with (size, minAmountOut, isMargin false, isFillOrKill true) |
| UseTrade.SelectFeeFields | hooks/useTrade.ts:247-265 | exactly the two EIP-1559 fields iff both are present; otherwise the legacy gas price, a missing one read as 0 |
| UseTrade.ApproveTx | hooks/useTrade.ts:197-215 | the approval goes to the base asset, approves the market for the amount, has gas limit 50,000 and no value |
| UseTrade.GasLimitFor | hooks/useTrade.ts:228-243 | the limit is floor(g·120/100) when that is within 2,800,000, the cap when above it or when simulation failed; never above the cap |
| UseTrade.PlanGasLimit | hooks/useTrade.ts:228-243 | the step-by-step buffer and cap compute GasLimitFor and stay within the cap |
| UseTrade.GasLimitMonotone | hooks/useTrade.ts:237-240 | a larger simulation never yields a smaller limit |
| UseTrade.GasLimitCoversSimulation | hooks/useTrade.ts:237-240 | below the cap the limit is at least the simulated gas |
| UseTrade.GasLimitFallbackIsMaximal | hooks/useTrade.ts:241-243 | the fallback is the largest limit any simulation gets |
| UseTrade.GasLimitOfThreeMillion | hooks/useTrade.ts:237-240 | a 3,000,000 simulation is capped to 2,800,000 |
| UseTrade.ApprovalAmount | hooks/useTrade.ts:193-205 | an allowance is due iff the side is sell and the base asset is not the zero address; its amount is the trade amount in base decimals |
| UseTrade.Prepare | hooks/useTrade.ts:152-216 | preparation succeeds iff the read, its decoding, DeriveOrder and (for trades) ApprovalAmount all succeed, and then holds their values; otherwise it fails with the first failing step's error |
| UseTrade.CheckSession | hooks/useTrade.ts:145-147 | the checks fail in order with "Wallet not connected", "Market not loaded", "Public client not connected", and pass iff all three hold |
| UseTrade.TradeTx | hooks/useTrade.ts:254-266 | the trade request goes to the market from the signer with the calldata, the order's value, the gas limit, the nonce and the selected fee fields |
| UseTrade.ErrorText | hooks/useTrade.ts:273 | the recorded error is the message when there is one, and never empty |
| UseTrade.TradeChecksSessionFirst | hooks/useTrade.ts:145-152 | a failed session check ends the trade with its message and no call; otherwise the first call is the market read |
| UseTrade.SubmitSuccess | hooks/useTrade.ts:228-270 | a successful submission made exactly the simulation, fee read, nonce read and trade send, returns the send's hash and records the capped gas limit and the gas price |
| UseTrade.Submit | hooks/useTrade.ts:228-270 | the submission first simulates the order's transaction and reads the fee data, records GasLimitFor of the simulation, and succeeds iff the fee read, the nonce read and the send all do |
| UseTrade.TradeRun | hooks/useTrade.ts:136-278 | a failed session check fails the trade with its message and no call; otherwise the first call is the market read; a recorded gas limit is within the cap |
| UseTrade.EstimateRun | hooks/useTrade.ts:46-134 | estimateGas never fails (its errors are swallowed); without a market it makes no call, otherwise it starts with the market read; a recorded gas limit is within the cap |
| UseTrade.TradeSuccessSendsOrder | hooks/useTrade.ts:152-270 | a successful trade passed every check and conversion, and its last call is the trade send of the converted order |
| UseTrade.TradeRunOutcome | hooks/useTrade.ts:152-273 | past the session checks, a failed conversion fails the trade with its error after only the read; a rejected due approval, a failed fee read or a failed nonce read fails it with that error; when all succeed, the outcome is the trade send's |
| UseTrade.ApprovalFirst | hooks/useTrade.ts:193-216 | when an allowance is due, the approval is the first send after the conversions |
| UseTrade.ApprovalPrecedesTrade | hooks/useTrade.ts:193-268 | for a non-native sell the call right after the read is the approval of the market for the amount in base decimals; for a buy or a native sell no approval is ever sent |
| UseTrade.PrepareApproval | hooks/useTrade.ts:193-205 | past the conversions, an allowance is due exactly for a non-native sell, for the amount in base decimals |
| UseTrade.TradeSendIsLast | hooks/useTrade.ts:268-270 | nothing follows the trade send: only the last call can be it |
| UseTrade.EstimateMatchesTrade | hooks/useTrade.ts:102-123 | for two separate runs on the same market parameters, the estimate simulates the very transaction the trade simulates; each limit is GasLimitFor of its own simulation, so equal simulation answers give equal limits |
| UseTrade.EstimateNeverSends | hooks/useTrade.ts:46-134 | the estimate never sends a transaction |
| UseTrade.TradeHook.constructor | hooks/useTrade.ts:37-43 | the hook starts not loading, with empty hash and error and no gas values |
| UseTrade.TradeHook.Trade | hooks/useTrade.ts:136-278 | trade returns TradeRun's outcome, logs its calls and gas values, records the hash on success or the error text on failure, and ends with loading false |
| UseTrade.TradeHook.TradeSteps | hooks/useTrade.ts:144-152 | the checks and the read, followed by the rest, do what TradeRun describes |
| UseTrade.TradeHook.ApproveAndSubmit | hooks/useTrade.ts:152-216 | the conversions and what follows do what TradeAfterRead describes |
| UseTrade.TradeHook.ApproveThenSubmit | hooks/useTrade.ts:193-268 | the approval (when due) and the submission do what TradeAfterPrepare describes |
| UseTrade.TradeHook.SubmitSteps | hooks/useTrade.ts:219-270 | simulation, gas limit, fee data, nonce and send do what Submit describes |
| UseTrade.TradeHook.EstimateGas | hooks/useTrade.ts:46-134 | estimateGas does what EstimateRun describes; any gas limit it writes is within the cap |
| UseTrade.TradeHook.EstimateSteps | hooks/useTrade.ts:54-100 | the conversions and what follows do what EstimateAfterRead describes |
| UseTrade.TradeHook.EstimateFrom | hooks/useTrade.ts:107-130 | the simulation, the gas limit and the fee read do what EstimateAfterPrepare describes |
| Units.ParseDecimal | hooks/useTrade.ts:161-164 | an amount text parses iff it is not empty, not a lone point, holds only digits and points, and at most one point; a parsed amount is digits, optionally a point and more digits, and its two parts rebuild the text |
| Units.ParseDecimalEdges | hooks/useTrade.ts:161-164 | ".5" and "5." parse with an empty whole or fraction part; "", "." and "1.2.3" do not |
| Units.ParseUnits | hooks/useTrade.ts:161-191 | parseUnits succeeds iff the text is a well-formed decimal whose fraction, without trailing zeros, has at most d digits; each refused text fails with its own reason |
| Units.ParseUnitsLexErrors | hooks/useTrade.ts:161-164 | "" and "1e5" fail with "invalid decimal value", "." with "missing value", "1.2.3" with "too many decimal points" |
| Units.ParseUnitsDenotes | hooks/useTrade.ts:161-191 | refused text fails with ethers' reason for it ("invalid decimal value" for empty text or other characters, "missing value" for a lone point, "too many decimal points"); a fraction longer than the decimals (trailing zeros aside) fails; otherwise the result n satisfies n·10^|fraction| = digits·10^d |
| Units.FormatThenParseUnits | hooks/useTrade.ts:161-168 | converting any n rendered with d decimals gives n back |
| Units.NatToString | hooks/useTrade.ts:32 | the decimal text of n has no leading zero and denotes n |
| Units.NatToStringLength | hooks/useTrade.ts:32-33 | a positive n has k+1 digits exactly when 10^k <= n < 10^(k+1) |
| OrderEstimate.NumberValue | hooks/useOrderEstimate.tsx:24 | Number(amount) is a number exactly for a decimal amount, and never negative |
| OrderEstimate.NumberValueAgreesWithUnits | hooks/useOrderEstimate.tsx:34 | when an amount converts to n units of d decimals, its Number is n / 10^d |
| OrderEstimate.ValidRequestIffNonZero | hooks/useOrderEstimate.tsx:24 | the guard passes iff the amount is a decimal with a non-zero digit and a market address is present |
| OrderEstimate.ReceiveText | hooks/useOrderEstimate.tsx:38 | the receive estimate is minAmountOut, or null without an estimate |
| OrderEstimate.GasText | hooks/useOrderEstimate.tsx:39-41 | the gas estimate is the decimal text of a present non-zero gas, else null |
| OrderEstimate.InvalidStartSkipsEstimator | hooks/useOrderEstimate.tsx:23-28 | invalid inputs clear the error, null both estimates and do not call the estimator |
| OrderEstimate.ValidStartCallsEstimator | hooks/useOrderEstimate.tsx:23-36 | valid inputs clear the error, raise estimating and call the estimator once with isBuy, the market, Number(amount) > 0 and the slippage, leaving the estimate as it was |
| OrderEstimate.StaleCompletionWritesNothing | hooks/useOrderEstimate.tsx:37-46 | a run whose cleanup fired changes none of the four returned values when it settles |
| OrderEstimate.LiveResolutionSetsEstimate | hooks/useOrderEstimate.tsx:37-46 | a live run's result sets the receive estimate to minAmountOut or null, the gas estimate iff gas is present and non-zero, clears estimating and keeps the error |
| OrderEstimate.LiveRejectionKeepsEstimate | hooks/useOrderEstimate.tsx:43-46 | a live run's failure sets the error to the message, keeps both estimates and clears estimating |
| OrderEstimate.StepsKeepFlags | hooks/useOrderEstimate.tsx:21-52 | no event clears an ignore flag once set |
| OrderEstimate.StepsKeepValid | hooks/useOrderEstimate.tsx:20-53 | the events keep one flag per run with only the latest run live |
| OrderEstimate.InvalidRunAfterValidLeavesSpinner | hooks/useOrderEstimate.tsx:24-46 | a valid run superseded by an invalid one leaves estimating true forever, whatever the old run's outcome |
| OrderEstimate.ResettingSpinnerKeepsSettled | hooks/useOrderEstimate.tsx:24-46 | when invalid inputs also lower estimating, every event keeps estimating equal to "the live run is unresolved" |
| OrderEstimate.OrderEstimateHook.constructor | hooks/useOrderEstimate.tsx:15-18 | the hook starts with null estimates, no error and estimating false |
| OrderEstimate.OrderEstimateHook.Start | hooks/useOrderEstimate.tsx:20-36 | a run of the effect up to its await is StartStep, and returns the new run's number |
| OrderEstimate.OrderEstimateHook.Cleanup | hooks/useOrderEstimate.tsx:50-52 | the cleanup sets that run's ignore flag and nothing else |
| OrderEstimate.OrderEstimateHook.Complete | hooks/useOrderEstimate.tsx:37-47 | the ignore-guarded writes after the await are CompleteStep |
| OrderEstimate.StartStep | hooks/useOrderEstimate.tsx:20-36 | a new run clears the error and adds a live ignore flag; it requests an estimate iff the guard passes, and then raises estimating; earlier flags and requests are kept |
| OrderEstimate.CleanupStep | hooks/useOrderEstimate.tsx:50-52 | the cleanup sets that run's flag, keeps every other flag, and changes none of the four returned values |
| OrderEstimate.CompleteStep | hooks/useOrderEstimate.tsx:37-47 | a settled run is no longer pending; an ignored run changes none of the returned values; a live one lowers estimating |
| OrderEstimate.OrderEstimateHook.StartResettingSpinner | hooks/useOrderEstimate.tsx:24-29 | the corrected start also lowers estimating on invalid inputs and leaves the hook settled |
| Api.ResponseItems | components/Home/fetchMarketsSearch.ts:30-35 | a non-ok response is the status error; otherwise the `data.data` array, empty when missing |
| Api.StatusErrorInjective | components/Home/fetchMarketsSearch.ts:31 | different statuses give different error messages |
| TrendingMarkets.ToPair | components/Home/fetchTrendingMarkets.ts:49-60 | marketAddress is token.market; tickers, image urls and volume5m are copied |
| TrendingMarkets.ToPairs | components/Home/fetchTrendingMarkets.ts:49-60 | one pair per token, same length and order |
| TrendingMarkets.PairsRoundTrip | components/Home/fetchTrendingMarkets.ts:49-60 | every pair gives back its API record: the projection loses nothing the API record holds |
| TrendingMarkets.ToPairsAppend | components/Home/fetchTrendingMarkets.ts:49 | the mapping distributes over concatenation |
| TrendingMarkets.FetchTrendingMarkets | components/Home/fetchTrendingMarkets.ts:42-64 | a non-ok status raises an error; a missing `data.data` gives no pairs; otherwise the pairs are the mapped tokens |
| MarketsSearch.Normalize | components/Home/fetchMarketsSearch.ts:38 | the compared query is a lower-cased piece of the typed query with only white space cut from its ends; it holds no ASCII capital and neither starts nor ends with white space |
| MarketsSearch.MatchesByToken | components/Home/fetchMarketsSearch.ts:41-53 | a market matches iff its base or quote token matches (address equal, name or ticker containing the query) or its market address equals the query |
| MarketsSearch.Filter | components/Home/fetchMarketsSearch.ts:41-54 | the kept markets all match, come from the input, and are no more than the input |
| MarketsSearch.FilterAppend | components/Home/fetchMarketsSearch.ts:41-54 | the filter distributes over concatenation, so it keeps input order |
| MarketsSearch.FilterMembership | components/Home/fetchMarketsSearch.ts:41-54 | a market is kept iff it is in the input and matches |
| MarketsSearch.FilterKeepsAll | components/Home/fetchMarketsSearch.ts:41-54 | when every market matches the filter changes nothing |
| MarketsSearch.ToOther | components/Home/fetchMarketsSearch.ts:87-93 | the other token's five fields are copied |
| MarketsSearch.ToResultChoosesToken | components/Home/fetchMarketsSearch.ts:57-94 | the main token is the quote token whenever it matches (even if the base does too), otherwise the base; the other token is the remaining one; the market address is market.market |
| MarketsSearch.ToResults | components/Home/fetchMarketsSearch.ts:57-95 | one result per kept market, in order |
| MarketsSearch.Search | components/Home/fetchMarketsSearch.ts:38-95 | no more results than markets |
| MarketsSearch.SearchResultsMatch | components/Home/fetchMarketsSearch.ts:41-95 | the i-th result comes from the i-th kept market, which is in the input and matches |
| MarketsSearch.BlankQueryKeepsAll | components/Home/fetchMarketsSearch.ts:38-73 | a blank query keeps every market, each with the quote token as main token |
| MarketsSearch.FetchMarketsSearch | components/Home/fetchMarketsSearch.ts:30-97 | a non-ok status raises an error; a missing `data.data` gives no results; otherwise the results are Search of the markets |
| Text.Trim | components/Home/fetchMarketsSearch.ts:38 | the trimmed text is no longer and neither starts nor ends with white space |
| Text.TrimIsInterior | components/Home/fetchMarketsSearch.ts:38 | the trimmed text is a contiguous piece of the original with only white space around it |
| Text.TrimIdempotent | components/Home/fetchMarketsSearch.ts:62 | trimming the trimmed query again changes nothing |
| Text.TrimAllWhiteSpace | components/Home/fetchMarketsSearch.ts:38 | white space alone trims to the empty string |
| Text.LowerChar | components/Home/fetchMarketsSearch.ts:38 | capitals map to small letters and every other character is kept |
| Text.Lower | components/Home/fetchMarketsSearch.ts:38 | toLowerCase keeps the length and lowers each character |
| Text.LowerTrimShape | components/Home/fetchMarketsSearch.ts:38 | lowering trimmed text gives no capital, no white space at either end, and a lowered piece of the input with only white space around it |
| Text.LowerIdempotent | components/Home/fetchMarketsSearch.ts:46-52 | lowering a lowered string changes nothing |
| Text.LowerIgnoresCase | components/Home/fetchMarketsSearch.ts:46-52 | strings equal up to case lower to the same string |
| Text.ContainsIffOccurs | components/Home/fetchMarketsSearch.ts:48-51 | includes holds iff the query occurs at some position |
| Text.ContainsEmpty | components/Home/fetchMarketsSearch.ts:48-51 | every name contains the empty query |
| Text.ContainsSelf | components/Home/fetchMarketsSearch.ts:48-51 | every name contains itself |
| Sorting.Insert | components/UserData/fetchUserPortfolio.ts:69 | insertion adds the element, keeps the other elements, and puts the element or the old head first |
| Sorting.InsertSorted | components/UserData/fetchUserPortfolio.ts:69 | inserting into a list ordered by key keeps it ordered |
| Sorting.SortDesc | components/UserData/fetchUserPortfolio.ts:69 | the sort by `key(b) - key(a)` is a permutation whose keys do not increase |
| Sorting.SortDescSameElements | components/UserData/fetchUserPortfolio.ts:69 | the sorted list has the elements of the original |
| Sorting.SortDescOfSorted | components/UserData/fetchUserPortfolio.ts:69 | a list in strictly decreasing order is left as it is |
| Sorting.InsertWithKey | components/UserData/fetchUserPortfolio.ts:69 | insertion passes only elements with a larger key, so the element comes first among those with an equal key |
| Sorting.SortDescStable | components/UserData/fetchUserPortfolio.ts:69 | the sort is stable, as `Array.prototype.sort` is: records with equal keys keep their input order |
| Sorting.PermutationKeepsDistinct | components/UserData/userPnL.tsx:64-65 | reordering a list without repeats gives no repeats |
| UserPortfolio.Scaled | components/UserData/fetchUserPortfolio.ts:38 | the balance is raw / 10^decimal, not negative for a non-negative raw balance |
| UserPortfolio.AboveDust | components/UserData/fetchUserPortfolio.ts:68 | only entries above 0.0001 are kept, taken from the input |
| KeyOrder.ValuesOfKeys | components/UserData/fetchUserPortfolio.ts:67 | listing a Map's values gives, when every listed key has an entry, the i-th key's entry at position i |
| UserPortfolio.AboveDustKeepsAll | components/UserData/fetchUserPortfolio.ts:68 | after the merge the final filter removes nothing |
| UserPortfolio.Responses | components/UserData/fetchUserPortfolio.ts:32 | the awaited responses are the fetched bodies, in request order |
| UserPortfolio.FetchUserPortfolio | components/UserData/fetchUserPortfolio.ts:25-74 | the nested loops, filter and sort return Portfolio of the fetched responses |
| UserPortfolio.Portfolio | components/UserData/fetchUserPortfolio.ts:25-73 | a failed request gives []; the portfolio is ordered by balance, largest first, and holds only entries above 0.0001 |
| UserPortfolio.MergeResponse | components/UserData/fetchUserPortfolio.ts:35-36 | a response throws exactly when it is successful but without data; otherwise the loop does CombineStep |
| UserPortfolio.MergeTokens | components/UserData/fetchUserPortfolio.ts:37-62 | the inner loop does AddTokens on the map |
| UserPortfolio.MergeToken | components/UserData/fetchUserPortfolio.ts:38-61 | one token does AddToken: dust skipped, a known address adds its balance, a new one is appended |
| UserPortfolio.FirstKept | components/UserData/fetchUserPortfolio.ts:44-61 | the first token above dust for an address is one of the tokens |
| UserPortfolio.SumKeptBounds | components/UserData/fetchUserPortfolio.ts:41-51 | an address with no token above dust sums to 0; one with such a token sums above 0.0001 |
| UserPortfolio.MergeDescribes | components/UserData/fetchUserPortfolio.ts:33-64 | the merge keeps each address once, and its entry is the first kept token's metadata with the sum of the kept balances |
| UserPortfolio.AddTokensAppend | components/UserData/fetchUserPortfolio.ts:35-64 | merging two lists is merging one after the other |
| UserPortfolio.CombineAllFlattens | components/UserData/fetchUserPortfolio.ts:35-64 | the responses combine iff none throws, and then give the merge of all their tokens in order |
| UserPortfolio.CombineAllStops | components/UserData/fetchUserPortfolio.ts:70-73 | once a response throws the whole combination fails |
| UserPortfolio.MergedValues | components/UserData/fetchUserPortfolio.ts:67 | the map's values are one entry per address with a token above dust, with first-occurrence metadata and summed balances |
| UserPortfolio.SortKeepsMerged | components/UserData/fetchUserPortfolio.ts:69 | sorting keeps that description |
| UserPortfolio.EntryOfAddress | components/UserData/fetchUserPortfolio.ts:44-61 | two listed entries with the same address are the same entry |
| UserPortfolio.PortfolioContents | components/UserData/fetchUserPortfolio.ts:25-69 | without errors the portfolio is sorted by balance, non-increasing, has one entry per address, each above 0.0001 with summed balance and first-occurrence metadata, and misses no kept address |
| UserPortfolio.ErrorsGiveEmpty | components/UserData/fetchUserPortfolio.ts:70-73 | a failed request or a throwing response gives the empty list |
| UserPnL.SelectUsers | components/UserData/fetchUserPnL.ts:24-43 | the document loops collect Users |
| UserPnL.Users | components/UserData/fetchUserPnL.ts:24-43 | no more users than documents, each the user of a selected document, all with the requested id when a non-empty one is given |
| UserPnL.UsersSelected | components/UserData/fetchUserPnL.ts:25-43 | a user is selected iff its document has a wallet array and, when an id is given, has that id |
| UserPnL.RowsOf | components/UserData/fetchUserPnL.ts:65 | one row per item, each tagged with its user |
| UserPnL.FetchUserPnL | components/UserData/fetchUserPnL.ts:22-136 | the loops and the final mapping compute PnL |
| UserPnL.PnL | components/UserData/fetchUserPnL.ts:22-135 | fails iff a request fails, with that error; every record's pnlPercent follows PnlPercent of its own totals |
| UserPnL.AddWallets | components/UserData/fetchUserPnL.ts:61-126 | the wallet loop fails iff a request fails, with its error, and otherwise adds the rows of all wallets |
| UserPnL.AddResponse | components/UserData/fetchUserPnL.ts:64-65 | a response adds its items only when it is successful with a data array |
| UserPnL.AddItems | components/UserData/fetchUserPnL.ts:65-124 | the item loop adds the rows of the items in order |
| UserPnL.AddItem | components/UserData/fetchUserPnL.ts:66-123 | one item updates the map as AddRow does |
| UserPnL.AddRow | components/UserData/fetchUserPnL.ts:66-123 | an uncounted item changes nothing; a counted one gives its key an entry, appending the key only when it is new, so keys and entries stay in step |
| UserPnL.WalletRowsStep | components/UserData/fetchUserPnL.ts:61-64 | one more wallet adds its response's rows, or fails with its request's error |
| UserPnL.WalletRowsStops | components/UserData/fetchUserPnL.ts:61-63 | once a wallet's request fails, the user's rows fail with that error |
| UserPnL.FetchedStops | components/UserData/fetchUserPnL.ts:60-63 | once a user's rows fail, the whole fetch fails with that error |
| UserPnL.FirstCounted | components/UserData/fetchUserPnL.ts:103-123 | the first counted row with a key has that key and is one of the rows |
| UserPnL.SumsOfAbsentKey | components/UserData/fetchUserPnL.ts:103-123 | a key no counted row has sums to 0 |
| UserPnL.AggregateDescribes | components/UserData/fetchUserPnL.ts:102-123 | the map has one entry per key of a counted row, holding the first such row's fields and the sums of invested and sold |
| UserPnL.AggregatedValues | components/UserData/fetchUserPnL.ts:130-135 | the listed records are one per key, each the first row's fields with the summed amounts and their percentage |
| UserPnL.ListedInOrder | components/UserData/fetchUserPnL.ts:130 | the i-th record is the record of the i-th inserted key |
| UserPnL.PnLContents | components/UserData/fetchUserPnL.ts:22-136 | when every request succeeds, the result is one record per user and token key, aggregated from all counted rows |
| UserPnL.FailedRequestFails | components/UserData/fetchUserPnL.ts:62-63 | a failing request makes fetchUserPnL fail with its error |
| UserPnL.ChosenSideNotIgnored | components/UserData/fetchUserPnL.ts:67-81 | for a counted item, the chosen token is the quote token when the base asset is ignored, and then the quote asset is not ignored; otherwise it is the base token |
| UserPnL.IgnoredIgnoresCase | components/UserData/fetchUserPnL.ts:67-68 | whether an asset is ignored does not depend on letter case |
| UserPnL.UncountedRowAddsNothing | components/UserData/fetchUserPnL.ts:67-86 | an item with both assets ignored, or with nothing sold, leaves the map unchanged |
| UserPnL.KeyInjective | components/UserData/fetchUserPnL.ts:103 | for token addresses without `_`, the key determines user and address |
| UserPnL.AfterLastOfKey | components/UserData/fetchUserPnL.ts:103 | the address is what follows the key's last `_` |
| UserPnL.PnlPercentMeaning | components/UserData/fetchUserPnL.ts:132-134 | with invested > 0 the percentage times invested is (sold − invested)·100, positive iff sold > invested, negative iff sold < invested; otherwise 0 |
| UserPnL.Finalized | components/UserData/fetchUserPnL.ts:130-135 | every entry gets its percentage, in order |
| PnlSummary.Summarize | components/UserData/userPnL.tsx:19-65 | the two loops, the listing and the sort compute Summary |
| PnlSummary.Summary | components/UserData/userPnL.tsx:19-65 | the table is ordered by percentage, largest first, and every line's percentage is its summed gain over its summed investment |
| PnlSummary.TallyRows | components/UserData/userPnL.tsx:29-43 | the first loop computes Tallied |
| PnlSummary.SetPercents | components/UserData/userPnL.tsx:45-49 | the second loop gives each listed user its percentage and changes nothing else |
| PnlSummary.ListEntries | components/UserData/userPnL.tsx:64 | Object.entries lists the records with their percentages in insertion order |
| PnlSummary.FirstRow | components/UserData/userPnL.tsx:30-38 | a user's first row is theirs and is one of the rows |
| PnlSummary.SumsOfAbsentUser | components/UserData/userPnL.tsx:40-41 | a user without rows sums to 0 |
| PnlSummary.TallyInv | components/UserData/userPnL.tsx:29-43 | one record per distinct user, holding the first row's name and picture, the sums of invested and sold, and totalPnl = totalSold − totalInvested |
| PnlSummary.EntriesOfKeys | components/UserData/userPnL.tsx:64 | the i-th entry is the i-th user with the percentage |
| PnlSummary.EntriesSummarize | components/UserData/userPnL.tsx:45-64 | the entries are one line per user with a row, each with the user's totals and percentage |
| PnlSummary.SortKeepsSummary | components/UserData/userPnL.tsx:64-65 | sorting keeps that description |
| PnlSummary.LineOfUser | components/UserData/userPnL.tsx:20-39 | two lines with the same user are the same line |
| PnlSummary.SummaryContents | components/UserData/userPnL.tsx:19-65 | the table is ordered by percentage, non-increasing, with one line per user, each that user's summed totals and percentage |
| PnlSummary.UserPercentMatchesTokenRule | components/UserData/userPnL.tsx:45-49 | a user's percentage is totalPnl/totalInvested·100 when totalInvested > 0 and 0 otherwise, the same rule as per token |

## Left out

- Network, RPC and storage are not modelled: JSON-RPC, `fetch`, Firestore reads and the wallet connection. Their answers are parameters (`Chain`, response sequences, a wallet-to-response function).
- `async` interleaving and `Promise.all` are not modelled. Requests are taken one after another in input order, and a failing request gives the first failure in that order.
- The receipt wait, the slippage formula in `estimateOrder`, `hooks/useTradeSDK.ts` and the UI components are not part of this model.
- ABI encoding is left out. Calldata is the tagged record `Calldata`, not bytes.
- `signer.getAddress()` is modelled as the connected wallet's address. A failure of that call is not modelled.
- A thrown `fetchMarketParams` is not modelled directly. Its read error and a malformed result become one failed read, and the element conversions of `BigNumber.from` are assumed to succeed.
- `ethers.utils.parseUnits` is modelled on unsigned decimal text: digits with at most one point, and a fraction no longer than the decimals once trailing zeros are dropped. Left out are signs, the bound on `decimals`, exponent forms and `Number.toString` of the amount (the hook's `amount` is taken as its decimal text).
- Units.ParseUnits: an ethers error is modelled by its reason only ("invalid decimal value", "missing value", "too many decimal points", "fractional component exceeds decimals"). ethers appends a detail suffix to the message (`argument`, `value`, `code`, library `version`; for the fraction fault `fault`, `operation`), so the text `trade` stores in `error` is the reason without that suffix. The ethers version is not part of this model.
- Console output is left out: the `console.log` of the estimated gas limit (hooks/useTrade.ts:124) and of the search results (components/Home/fetchMarketsSearch.ts:96), and the `console.error` in the catches of components/Home/fetchTrendingMarkets.ts:67, components/Home/fetchMarketsSearch.ts:99 and components/UserData/fetchUserPortfolio.ts:71. None of it changes a returned value.
- Units.FormatUnits is a fixed-point rendering used to state the round trip. It is not ethers `formatUnits`, which the app does not call.
- JavaScript `Number` parsing is modelled for unsigned decimal text only. Left out are whitespace, signs, exponents, hexadecimal forms, `Infinity`, and the float rounding of `Number(amount)`.
- IEEE doubles in the portfolio and PnL code are reals. Left out are rounding, the number-to-string round trip of balances, and `Number` on non-numeric balances (NaN).
- Text.LowerChar lowers only ASCII capitals. Unicode case mapping is left out, and token names and tickers are assumed ASCII for case-insensitive matching.
- PnlSummary.ListEntries lists users in insertion order. JavaScript lists integer-like object keys first and also sees inherited prototype keys. Both are left out.
- The unused `decimals` variable in fetchUserPnL (`token?.decimal ?? 18`) has no effect and is not modelled.
- A PnL item whose `baseasset` or `quoteasset` is present but not a string (`toLowerCase` would throw) is not modelled. Assets are optional strings.
- The loading flag and the rendering in `userPnL.tsx` outside lines 19–65 are left out.

## Findings

| source | as written | input that shows it | evidently intended | confidence | as-written member | corrected member |
|---|---|---|---|---|---|---|
| hooks/useOrderEstimate.tsx:24-46 | an invalid run returns before its `finally`, so it never lowers `estimating`; the superseded valid run that raised it is ignored when it settles | a valid amount "1" with a market, then the amount cleared to "" before the estimate returns: `estimating` stays true for good | the spinner stops once the inputs become invalid, so `estimating` is true only while the live run's estimator call is unresolved | not executed | OrderEstimate.InvalidRunAfterValidLeavesSpinner | OrderEstimate.ResettingSpinnerKeepsSettled |
