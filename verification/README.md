# Kwenta exchange selectors and staking epochs in Dafny

This project models two pure parts of the Kwenta trading front end.

- **The exchange slice's derived state.** These are the selectors that turn a snapshot of exchange, balances and wallet state into amounts, rates, balances and eligibility flags. They also produce the ranked reason why the submit button is disabled, the fixed-point rate table and the trade prices.
- **The staking epoch windows.** Each window is a week long and counted from a start time that depends on the network.

Each selector is a Dafny function of an immutable `Snapshot` (module `ExchangeState`) and of the Wei parser. Memoisation is not modelled.

Modules:

- `Wrappers`: the `Option` datatype.
- `FixedPoint`: Wei values are modelled as exact rationals (`real`). The library's `wei(string)` constructor is the parameter `wei: Parser`, and no property depends on what it does with a non-empty string. `ToWei` is the `toWei` helper. Its definition is not part of this model. It is *assumed* to return zero for an absent or empty string and `wei(s)` otherwise.
- `ExchangeState`: the raw state. Decimal fields are `Option<string>`. A currency key counts as set when it is present and non-empty, which is JavaScript truthiness. The tx provider, the fetch status and the balance tables are datatypes and maps. Wallet connection and total USD balance come from selectors of other slices, so they are plain snapshot fields.
- `ExchangeSelectors`: amount and rate normalisation, the inverse rate, the balance lookup with its fallback table, and the eligibility predicates.
- `SubmissionReason`: the first-match chain of seven guards and eight reasons. It includes a reference definition as an ordered rule list (`Rules`, `FirstMatch`), a proof that the two agree, and the precedence lemma.
- `TradePrice`: the fixed-point rate table (the source's accumulation is a method with a loop), the `sUSD` rate and both trade prices.
- `StakingEpoch`: `WEEK`, `EPOCH_START` and `getEpochDetails` over `int`, with lemmas on contiguity and tiling.

Three details of the code shape the model:

- `if (sUSDRate)` (selectors.ts lines 238 and 251) tests that the `sUSD` rate is present, not that it is nonzero, so a present zero rate is divided by. The trade-price selectors therefore carry a precondition; see "## Left out".
- The rates table uses `wei(value)` directly (line 218), not `toWei`, so `ExchangeRatesWei` has no blank default.
- `quotePriceRate || 0` never takes its right-hand side, because the price rate is always a Wei object. The model multiplies by the normalised price rate.

## Model

| member | source | states |
|---|---|---|
| ExchangeSelectors.QuoteAmountWei | state/exchange/selectors.ts:14-17 | a blank quote amount reads as zero; otherwise it is the parsed string |
| ExchangeSelectors.BaseAmountWei | state/exchange/selectors.ts:19-22 | a blank base amount reads as zero; otherwise it is the parsed string |
| ExchangeSelectors.BothSidesSelected | state/exchange/selectors.ts:24-30 | both sides are selected iff both currency keys are present and non-empty |
| ExchangeSelectors.NoSynths | state/exchange/selectors.ts:43-45 | the wallet has no synths iff its total USD balance is not positive |
| ExchangeSelectors.ShowFee | state/exchange/selectors.ts:47-50 | the fee is shown iff the provider is Synthetix |
| ExchangeSelectors.RateWei | state/exchange/selectors.ts:52-55 | an unset or empty rate is zero; otherwise it is the parsed rate |
| ExchangeSelectors.Reciprocal | state/exchange/selectors.ts:57-59 | for positive x the result is positive and multiplies x to 1; for non-positive x it is zero |
| ExchangeSelectors.InverseRate | state/exchange/selectors.ts:57-59 | a positive rate times its inverse is 1; a zero, negative or unset rate gives an inverse of 0 and never divides |
| ExchangeSelectors.ReciprocalInvolutive | state/exchange/selectors.ts:57-59 | inverting a positive rate twice gives the rate back |
| ExchangeSelectors.LookupBalance | state/exchange/selectors.ts:67 | the primary table's defined balance is used; the token-balance table is consulted only when that balance is undefined; with neither, the result is undefined |
| ExchangeSelectors.QuoteBalanceWei | state/exchange/selectors.ts:61-70 | an unset quote key gives zero; otherwise the result is the normalised primary-then-fallback balance |
| ExchangeSelectors.BaseBalanceWei | state/exchange/selectors.ts:78-87 | an unset base key gives zero; otherwise the result is the normalised primary-then-fallback balance |
| ExchangeSelectors.PrimaryBalanceShadowsFallback | state/exchange/selectors.ts:61-70 | when the primary entry has a balance, the token-balance table has no influence on the quote balance |
| ExchangeSelectors.MissingBalanceIsZero | state/exchange/selectors.ts:61-70 | a key absent from both tables has balance zero |
| ExchangeSelectors.InsufficientBalance | state/exchange/selectors.ts:72-76 | the balance is insufficient iff amount > balance, so an amount equal to the balance is sufficient |
| ExchangeSelectors.QuotePriceRateWei | state/exchange/selectors.ts:89-92 | a blank price rate is zero; otherwise it is the parsed string |
| ExchangeSelectors.BasePriceRateWei | state/exchange/selectors.ts:94-97 | a blank price rate is zero; otherwise it is the parsed string |
| ExchangeSelectors.TotalRedeemableBalanceWei | state/exchange/selectors.ts:99-102 | a blank redeemable total is zero; otherwise it is the parsed string |
| ExchangeSelectors.ExchangeFeeRateWei | state/exchange/selectors.ts:104-107 | a blank fee rate is zero; otherwise it is the parsed string |
| ExchangeSelectors.SlippagePercentWei | state/exchange/selectors.ts:109-112 | a blank slippage is zero; otherwise it is the parsed string |
| ExchangeSelectors.TransactionFeeWei | state/exchange/selectors.ts:114-117 | a blank transaction fee is undefined, not zero; otherwise it is the parsed string |
| ExchangeSelectors.FeeCostWei | state/exchange/selectors.ts:119-122 | a blank fee cost is zero; otherwise it is the parsed string |
| ExchangeSelectors.BaseFeeRateWei | state/exchange/selectors.ts:124-127 | a blank base fee rate is zero; otherwise it is the parsed string |
| ExchangeSelectors.CanRedeem | state/exchange/selectors.ts:129-134 | redeeming needs both a positive redeemable total and a non-empty redeemable list; either failing gives false |
| ExchangeSelectors.NeedsApproval | state/exchange/selectors.ts:136-143 | approval is needed exactly for the 1inch and synthswap providers with a non-ETH quote key; never for Synthetix or an ETH quote |
| ExchangeSelectors.AllowanceWei | state/exchange/selectors.ts:150 | a blank allowance reads as zero; otherwise it is the parsed string |
| ExchangeSelectors.IsApproved | state/exchange/selectors.ts:145-152 | without a need for approval the trade is approved for any allowance; otherwise approved iff allowance >= quote amount |
| ExchangeSelectors.IsApproving | state/exchange/selectors.ts:154-157 | approving iff the approval status is loading |
| ExchangeSelectors.ShowFeeNeedsNoApproval | state/exchange/selectors.ts:47-50 | the Synthetix route, which shows the fee, needs no approval and is always approved |
| ExchangeSelectors.ApprovalMonotoneInAllowance | state/exchange/selectors.ts:145-152 | raising the allowance of an approved state keeps it approved |
| SubmissionReason.MessageKey | state/exchange/selectors.ts:182-205 | every reason's translation key lies under the `exchange.summary-info.button.` prefix |
| SubmissionReason.ReasonOfKey | state/exchange/selectors.ts:182-205 | a key read back as a reason is that reason's key |
| SubmissionReason.MessageKeyRoundTrip | state/exchange/selectors.ts:182-205 | the eight keys are distinct: each key reads back as its own reason |
| SubmissionReason.DisabledReason | state/exchange/selectors.ts:170-206 | a fee-reclaim period wins over everything; with no fee reclaim and a side unselected, the reason is select-token for 1inch and select-synth otherwise; no reason iff none of the seven guards fires |
| SubmissionReason.FirstMatch | state/exchange/selectors.ts:182-205 | the reference chain gives no reason iff no rule fires, and otherwise the reason of a rule that fires after only non-firing rules |
| SubmissionReason.FirstFiringDetermines | state/exchange/selectors.ts:182-205 | the first firing rule decides the result; later rules never apply |
| SubmissionReason.ChainIsFirstMatch | state/exchange/selectors.ts:182-206 | the source's if-chain equals first match over its seven guards in order, for every input |
| SubmissionReason.ReasonIsHighestFiringGuard | state/exchange/selectors.ts:182-205 | the reason is r iff r's guard fires and every guard ranked above it does not (both directions) |
| SubmissionReason.SubmissionDisabledReason | state/exchange/selectors.ts:159-207 | over a snapshot: a fee-reclaim period gives fee-reclaim-period; otherwise an unselected side gives select-token on 1inch and select-synth elsewhere |
| SubmissionReason.IsSubmissionDisabled | state/exchange/selectors.ts:209-212 | submission is disabled iff one of the guards holds: fee reclaim, unselected side, insufficient balance, submitting, approving, quote error, disconnected wallet, or a non-positive amount |
| SubmissionReason.FeeReclaimOverridesInsufficientBalance | state/exchange/selectors.ts:182-191 | fee reclaim together with insufficient balance gives fee-reclaim-period, never insufficient-balance |
| SubmissionReason.ReadyTradeIsEnabled | state/exchange/selectors.ts:182-205 | a selected, funded, idle trade on a connected wallet with positive amounts has no reason and is enabled |
| TradePrice.ExchangeRatesWei | state/exchange/selectors.ts:214-221 | the parsed rate table has exactly the raw table's keys, each mapped to its parsed value |
| TradePrice.AccumulateRatesWei | state/exchange/selectors.ts:214-221 | accumulating entry by entry in any key order yields exactly the raw keys, each with its parsed value |
| TradePrice.AccumulationIsExchangeRatesWei | state/exchange/selectors.ts:217-220 | any table with those keys and values is the parsed table, so the visiting order does not matter |
| TradePrice.UsdRateWei | state/exchange/selectors.ts:223-226 | the USD rate is present iff the table has `sUSD`, and then it is that entry parsed |
| TradePrice.PriceInUsd | state/exchange/selectors.ts:236-242 | without a USD rate the price is amount * priceRate; with one, the price times the USD rate is amount * priceRate |
| TradePrice.TotalTradePrice | state/exchange/selectors.ts:232-243 | quote amount * quote price rate, divided by the `sUSD` rate only when one is present |
| TradePrice.EstimatedBaseTradePrice | state/exchange/selectors.ts:245-256 | base amount * base price rate, divided by the `sUSD` rate only when one is present |
| TradePrice.TradePriceExamples | state/exchange/selectors.ts:236-242 | 10 at price 2 gives 20 with no USD rate and 5 at a USD rate of 4 |
| TradePrice.TotalTradePriceRescales | state/exchange/selectors.ts:232-243 | with a nonzero `sUSD` rate u, the total trade price times u equals the total trade price of the same state without the `sUSD` entry |
| TradePrice.EstimatedBaseTradePriceRescales | state/exchange/selectors.ts:245-256 | with a nonzero `sUSD` rate u, the estimated base trade price times u equals that price of the same state without the `sUSD` entry |
| TradePrice.UsdRateOnlyRescales | state/exchange/selectors.ts:232-256 | with a nonzero `sUSD` rate u, both trade prices times u equal the prices of the same state with `sUSD` removed from the rate table: the USD rate only rescales |
| StakingEpoch.IsKnownNetwork | queries/staking/utils.ts:1-4 | the networks with a truthy epoch-start entry are exactly 420 and 10 |
| StakingEpoch.GetEpochDetails | queries/staking/utils.ts:11-20 | the end is always one WEEK after the start; for 420 and 10 the start is that network's base plus WEEK * epoch; for any other network it is chain 10's base |
| StakingEpoch.UnknownNetworkIgnoresEpoch | queries/staking/utils.ts:12-14 | an unknown network gets the same window for every epoch, equal to chain 10's epoch zero |
| StakingEpoch.ConsecutiveEpochsAreContiguous | queries/staking/utils.ts:12-15 | on a known network, epoch e ends where e+1 starts, and starts strictly increase |
| StakingEpoch.EpochAt | queries/staking/utils.ts:12-15 | for a known network and any time t, names an epoch whose window contains t |
| StakingEpoch.EpochsTileTime | queries/staking/utils.ts:12-15 | on a known network a time lies in an epoch's window iff that epoch is `EpochAt`, so the windows cover the time line without overlap |

## Left out

- Memoisation by `createSelector`, and the reference identity of results: this is library behaviour. Every selector is a plain function.
- `selectQuoteCurrencyName` and `selectBaseCurrencyName`: they call the external SDK's `getCurrencyName`.
- `selectEthRate`: it depends on `newGetExchangeRatesForCurrencies`, and `utils/currencies` is not part of this model.
- `selectTotalUSDBalanceWei` and `selectIsWalletConnected`: these are selectors of other slices. Their values are the snapshot fields `totalUSDBalance` and `isWalletConnected`.
- Wei rounding: the library stores 18 decimals and truncates `div` and `mul`. The model computes exactly in `real`, so `InverseRate`, `PriceInUsd`, `TotalTradePrice` and `EstimatedBaseTradePrice` state the exact quotient, not the truncated one.
- TradePrice.TotalTradePrice: requires a present `sUSD` rate to be nonzero. In the source, a present zero rate is divided by at line 239, Wei division by zero faults, and the selector throws. The model does not represent that fault.
- TradePrice.EstimatedBaseTradePrice: requires a present `sUSD` rate to be nonzero. In the source, a present zero rate is divided by at line 252, Wei division by zero faults, and the selector throws. The model does not represent that fault.
- Parsing: `wei(string)` is a parameter with no assumed behaviour. `utils/formatters/number` is not part of this model. Its zero default for blank input is an assumption, stated by `ToWei`. A string the library would reject, which throws in the source, is not modelled.
- `CRYPTO_CURRENCY_MAP.ETH` is taken to be `"ETH"`, and `FetchStatus` is taken to be idle, loading, success or error. `constants/currency` and `state/types` are not part of this model. The tx provider set is taken to be synthetix, 1inch and synthswap.
- `oneInchQuoteError` is modelled as a boolean, so its truthiness is the value itself.
- `StakingEpoch.GetEpochDetails` computes over unbounded integers. JavaScript numbers are doubles and are exact only below 2^53. The model therefore does not cover the loss of precision for epoch numbers beyond about 1.5e10.
- `feeReclaimPeriod` and `epoch` are JavaScript numbers but are modelled as `int`, so fractional values are outside the model. The source only compares `feeReclaimPeriod > 0` and computes `WEEK * epoch`.
- `getStakingApy`, `DECAY_RATE`, `INITIAL_WEEKLY_SUPPLY` and `STAKING_REWARDS_RATIO`: these use floating-point exponentiation and division.
- The futures dashboard tabs page (React rendering and routing) and the futures trades query (subgraph fetching, polling and error swallowing): these are presentation and network I/O.
