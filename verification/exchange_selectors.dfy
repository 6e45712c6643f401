/**
 * The exchange slice's derived values: amount and rate normalisation, balance
 * lookup and the eligibility predicates. Each selector is a pure function of a
 * snapshot and of the Wei parser; memoisation is not modelled.
 */
module ExchangeSelectors {
  import opened Wrappers
  import opened FixedPoint
  import opened ExchangeState

  // ---------------------------------------------------------------------------
  // Amount and rate normalisation
  // ---------------------------------------------------------------------------

  function QuoteAmountWei(wei: Parser, s: Snapshot): (r: real)
    ensures IsBlank(s.exchange.quoteAmount) ==> r == 0.0
    ensures !IsBlank(s.exchange.quoteAmount) ==> r == wei(s.exchange.quoteAmount.value)
  {
    ToWei(wei, s.exchange.quoteAmount)
  }

  function BaseAmountWei(wei: Parser, s: Snapshot): (r: real)
    ensures IsBlank(s.exchange.baseAmount) ==> r == 0.0
    ensures !IsBlank(s.exchange.baseAmount) ==> r == wei(s.exchange.baseAmount.value)
  {
    ToWei(wei, s.exchange.baseAmount)
  }

  /** The quoted rate; an unset or empty rate reads as zero. */
  function RateWei(wei: Parser, s: Snapshot): (r: real)
    ensures IsBlank(s.exchange.rate) ==> r == 0.0
    ensures !IsBlank(s.exchange.rate) ==> r == wei(s.exchange.rate.value)
  {
    ToWei(wei, s.exchange.rate)
  }

  /** `1 / x` for a positive `x`, and zero otherwise. */
  function Reciprocal(x: real): (r: real)
    ensures x > 0.0 ==> r > 0.0 && r * x == 1.0
    ensures x <= 0.0 ==> r == 0.0
  {
    if x > 0.0 then 1.0 / x else 0.0
  }

  /** The inverse rate never divides by zero: a non-positive rate gives zero. */
  function InverseRate(wei: Parser, s: Snapshot): (r: real)
    ensures RateWei(wei, s) > 0.0 ==> r > 0.0 && r * RateWei(wei, s) == 1.0
    ensures RateWei(wei, s) <= 0.0 ==> r == 0.0
    ensures IsBlank(s.exchange.rate) ==> r == 0.0
  {
    Reciprocal(RateWei(wei, s))
  }

  /** Inverting a positive rate twice gives the rate back. */
  lemma ReciprocalInvolutive(x: real)
    requires x > 0.0
    ensures Reciprocal(Reciprocal(x)) == x
  {
  }

  function QuotePriceRateWei(wei: Parser, s: Snapshot): (r: real)
    ensures IsBlank(s.exchange.quotePriceRate) ==> r == 0.0
    ensures !IsBlank(s.exchange.quotePriceRate) ==> r == wei(s.exchange.quotePriceRate.value)
  {
    ToWei(wei, s.exchange.quotePriceRate)
  }

  function BasePriceRateWei(wei: Parser, s: Snapshot): (r: real)
    ensures IsBlank(s.exchange.basePriceRate) ==> r == 0.0
    ensures !IsBlank(s.exchange.basePriceRate) ==> r == wei(s.exchange.basePriceRate.value)
  {
    ToWei(wei, s.exchange.basePriceRate)
  }

  function TotalRedeemableBalanceWei(wei: Parser, s: Snapshot): (r: real)
    ensures IsBlank(s.exchange.totalRedeemableBalance) ==> r == 0.0
    ensures !IsBlank(s.exchange.totalRedeemableBalance) ==> r == wei(s.exchange.totalRedeemableBalance.value)
  {
    ToWei(wei, s.exchange.totalRedeemableBalance)
  }

  function ExchangeFeeRateWei(wei: Parser, s: Snapshot): (r: real)
    ensures IsBlank(s.exchange.exchangeFeeRate) ==> r == 0.0
    ensures !IsBlank(s.exchange.exchangeFeeRate) ==> r == wei(s.exchange.exchangeFeeRate.value)
  {
    ToWei(wei, s.exchange.exchangeFeeRate)
  }

  function SlippagePercentWei(wei: Parser, s: Snapshot): (r: real)
    ensures IsBlank(s.exchange.slippagePercent) ==> r == 0.0
    ensures !IsBlank(s.exchange.slippagePercent) ==> r == wei(s.exchange.slippagePercent.value)
  {
    ToWei(wei, s.exchange.slippagePercent)
  }

  /** Unlike the other fees, a blank transaction fee is undefined rather than zero. */
  function TransactionFeeWei(wei: Parser, s: Snapshot): (r: Option<real>)
    ensures r.None? <==> IsBlank(s.exchange.transactionFee)
    ensures r.Some? ==> r.value == wei(s.exchange.transactionFee.value)
  {
    if IsBlank(s.exchange.transactionFee) then None else Some(ToWei(wei, s.exchange.transactionFee))
  }

  function FeeCostWei(wei: Parser, s: Snapshot): (r: real)
    ensures IsBlank(s.exchange.feeCost) ==> r == 0.0
    ensures !IsBlank(s.exchange.feeCost) ==> r == wei(s.exchange.feeCost.value)
  {
    ToWei(wei, s.exchange.feeCost)
  }

  function BaseFeeRateWei(wei: Parser, s: Snapshot): (r: real)
    ensures IsBlank(s.exchange.baseFeeRate) ==> r == 0.0
    ensures !IsBlank(s.exchange.baseFeeRate) ==> r == wei(s.exchange.baseFeeRate.value)
  {
    ToWei(wei, s.exchange.baseFeeRate)
  }

  // ---------------------------------------------------------------------------
  // Balance lookup
  // ---------------------------------------------------------------------------

  predicate HasPrimaryBalance(b: BalancesSlice, key: string) {
    key in b.balancesMap && b.balancesMap[key].balance.Some?
  }

  /**
   * `balancesMap[key]?.balance ?? tokenBalances?.[key]?.balance`: the fallback
   * table is read only when the primary entry or its balance is undefined; an
   * empty-string primary balance is kept.
   */
  function LookupBalance(b: BalancesSlice, key: string): (r: Option<string>)
    ensures HasPrimaryBalance(b, key) ==> r == b.balancesMap[key].balance
    ensures !HasPrimaryBalance(b, key) && b.tokenBalances.Some? && key in b.tokenBalances.value
            ==> r == b.tokenBalances.value[key].balance
    ensures !HasPrimaryBalance(b, key) && (b.tokenBalances.None? || key !in b.tokenBalances.value)
            ==> r.None?
  {
    if HasPrimaryBalance(b, key) then b.balancesMap[key].balance
    else if b.tokenBalances.Some? && key in b.tokenBalances.value then b.tokenBalances.value[key].balance
    else None
  }

  function QuoteBalanceWei(wei: Parser, s: Snapshot): (r: real)
    ensures !IsKeySet(s.exchange.quoteCurrencyKey) ==> r == 0.0
    ensures IsKeySet(s.exchange.quoteCurrencyKey)
            ==> r == ToWei(wei, LookupBalance(s.balances, s.exchange.quoteCurrencyKey.value))
  {
    if IsKeySet(s.exchange.quoteCurrencyKey)
    then ToWei(wei, LookupBalance(s.balances, s.exchange.quoteCurrencyKey.value))
    else 0.0
  }

  function BaseBalanceWei(wei: Parser, s: Snapshot): (r: real)
    ensures !IsKeySet(s.exchange.baseCurrencyKey) ==> r == 0.0
    ensures IsKeySet(s.exchange.baseCurrencyKey)
            ==> r == ToWei(wei, LookupBalance(s.balances, s.exchange.baseCurrencyKey.value))
  {
    if IsKeySet(s.exchange.baseCurrencyKey)
    then ToWei(wei, LookupBalance(s.balances, s.exchange.baseCurrencyKey.value))
    else 0.0
  }

  /**
   * A primary-table balance shadows the fallback table completely: two states
   * that agree on the primary entry agree on the quote balance, whatever their
   * token balances.
   */
  lemma PrimaryBalanceShadowsFallback(wei: Parser, s: Snapshot, s': Snapshot)
    requires s'.exchange.quoteCurrencyKey == s.exchange.quoteCurrencyKey
    requires IsKeySet(s.exchange.quoteCurrencyKey)
    requires HasPrimaryBalance(s.balances, s.exchange.quoteCurrencyKey.value)
    requires s'.balances.balancesMap == s.balances.balancesMap
    ensures QuoteBalanceWei(wei, s') == QuoteBalanceWei(wei, s)
    ensures QuoteBalanceWei(wei, s)
            == ToWei(wei, s.balances.balancesMap[s.exchange.quoteCurrencyKey.value].balance)
  {
  }

  /** With no balance under the key in either table, the balance reads as zero. */
  lemma MissingBalanceIsZero(wei: Parser, s: Snapshot)
    requires IsKeySet(s.exchange.quoteCurrencyKey)
    requires s.exchange.quoteCurrencyKey.value !in s.balances.balancesMap
    requires s.balances.tokenBalances.None?
             || s.exchange.quoteCurrencyKey.value !in s.balances.tokenBalances.value
    ensures QuoteBalanceWei(wei, s) == 0.0
  {
  }

  // ---------------------------------------------------------------------------
  // Eligibility predicates
  // ---------------------------------------------------------------------------

  predicate BothSidesSelected(s: Snapshot)
    ensures BothSidesSelected(s) <==> IsKeySet(s.exchange.baseCurrencyKey) && IsKeySet(s.exchange.quoteCurrencyKey)
  {
    IsKeySet(s.exchange.baseCurrencyKey) && IsKeySet(s.exchange.quoteCurrencyKey)
  }

  /** The wallet holds no synths when its total USD balance is at most zero. */
  predicate NoSynths(s: Snapshot)
    ensures NoSynths(s) <==> !(s.totalUSDBalance > 0.0)
  {
    s.totalUSDBalance <= 0.0
  }

  predicate ShowFee(s: Snapshot)
    ensures ShowFee(s) <==> s.exchange.txProvider.Synthetix?
  {
    s.exchange.txProvider == Synthetix
  }

  /** Strict comparison: spending exactly the whole balance is sufficient. */
  predicate InsufficientBalance(wei: Parser, s: Snapshot)
    ensures InsufficientBalance(wei, s) <==> QuoteAmountWei(wei, s) > QuoteBalanceWei(wei, s)
    ensures QuoteAmountWei(wei, s) == QuoteBalanceWei(wei, s) ==> !InsufficientBalance(wei, s)
  {
    QuoteAmountWei(wei, s) > QuoteBalanceWei(wei, s)
  }

  predicate CanRedeem(wei: Parser, s: Snapshot)
    ensures CanRedeem(wei, s) ==> TotalRedeemableBalanceWei(wei, s) > 0.0
    ensures CanRedeem(wei, s) ==> |s.exchange.redeemableSynthBalances| > 0
    ensures TotalRedeemableBalanceWei(wei, s) > 0.0 && |s.exchange.redeemableSynthBalances| > 0 ==> CanRedeem(wei, s)
  {
    TotalRedeemableBalanceWei(wei, s) > 0.0 && |s.exchange.redeemableSynthBalances| > 0
  }

  /** Only the aggregator routes spend an ERC-20 allowance, and never for ETH. */
  predicate NeedsApproval(s: Snapshot)
    ensures NeedsApproval(s) ==> !s.exchange.txProvider.Synthetix?
    ensures s.exchange.quoteCurrencyKey == Some(ETH) ==> !NeedsApproval(s)
    ensures ((s.exchange.txProvider.OneInch? || s.exchange.txProvider.Synthswap?)
             && s.exchange.quoteCurrencyKey != Some(ETH)) ==> NeedsApproval(s)
  {
    (s.exchange.txProvider == OneInch || s.exchange.txProvider == Synthswap)
    && s.exchange.quoteCurrencyKey != Some(ETH)
  }

  function AllowanceWei(wei: Parser, s: Snapshot): (r: real)
    ensures IsBlank(s.exchange.allowance) ==> r == 0.0
    ensures !IsBlank(s.exchange.allowance) ==> r == wei(s.exchange.allowance.value)
  {
    ToWei(wei, s.exchange.allowance)
  }

  predicate IsApproved(wei: Parser, s: Snapshot)
    ensures !NeedsApproval(s) ==> IsApproved(wei, s)
    ensures NeedsApproval(s) ==> (IsApproved(wei, s) <==> AllowanceWei(wei, s) >= QuoteAmountWei(wei, s))
  {
    if NeedsApproval(s) then AllowanceWei(wei, s) >= QuoteAmountWei(wei, s) else true
  }

  predicate IsApproving(s: Snapshot)
    ensures IsApproving(s) <==> s.exchange.approvalStatus.Loading?
  {
    s.exchange.approvalStatus == Loading
  }

  /** The Synthetix route shows a fee and never waits on an approval. */
  lemma ShowFeeNeedsNoApproval(wei: Parser, s: Snapshot)
    requires ShowFee(s)
    ensures !NeedsApproval(s) && IsApproved(wei, s)
  {
  }

  /**
   * Approval is monotone in the allowance: raising the allowance of an approved
   * state keeps it approved.
   */
  lemma ApprovalMonotoneInAllowance(wei: Parser, s: Snapshot, allowance: Option<string>)
    requires IsApproved(wei, s)
    requires ToWei(wei, allowance) >= AllowanceWei(wei, s)
    ensures IsApproved(wei, s.(exchange := s.exchange.(allowance := allowance)))
  {
  }
}
