/**
 * The raw state the exchange selectors read: the exchange slice, the balances
 * slice, and the two values supplied by selectors of other slices (wallet
 * connection and total USD balance), taken here as inputs.
 */
module ExchangeState {
  import opened Wrappers
  import opened FixedPoint

  /** Execution venue that routes a trade. */
  datatype TxProvider = Synthetix | OneInch | Synthswap

  /** Status tag of an asynchronous action such as a token approval. */
  datatype FetchStatus = Idle | Loading | Success | Error

  /** A redeemable synth balance; only the list's length matters to the selectors. */
  datatype RedeemableBalance = RedeemableBalance(currencyKey: string, balance: string)

  /** An entry of a balances table; its `balance` may be undefined. */
  datatype BalanceEntry = BalanceEntry(balance: Option<string>)

  datatype ExchangeSlice = ExchangeSlice(
    quoteAmount: Option<string>,
    baseAmount: Option<string>,
    quoteCurrencyKey: Option<string>,
    baseCurrencyKey: Option<string>,
    rate: Option<string>,
    quotePriceRate: Option<string>,
    basePriceRate: Option<string>,
    exchangeFeeRate: Option<string>,
    slippagePercent: Option<string>,
    baseFeeRate: Option<string>,
    totalRedeemableBalance: Option<string>,
    transactionFee: Option<string>,
    feeCost: Option<string>,
    allowance: Option<string>,
    exchangeRates: map<string, string>,
    txProvider: TxProvider,
    feeReclaimPeriod: int,
    isSubmitting: bool,
    approvalStatus: FetchStatus,
    oneInchQuoteError: bool,
    redeemableSynthBalances: seq<RedeemableBalance>
  )

  /** The primary balances table and the optional token-balance fallback table. */
  datatype BalancesSlice = BalancesSlice(
    balancesMap: map<string, BalanceEntry>,
    tokenBalances: Option<map<string, BalanceEntry>>
  )

  datatype Snapshot = Snapshot(
    exchange: ExchangeSlice,
    balances: BalancesSlice,
    isWalletConnected: bool,
    totalUSDBalance: real
  )

  /** Currency key of the network's native asset. */
  const ETH: string := "ETH"

  /** Key of the stable reference currency in the rates table. */
  const SUSD: string := "sUSD"

  /** JavaScript truthiness of an optional currency key. */
  predicate IsKeySet(key: Option<string>) {
    !IsBlank(key)
  }
}
