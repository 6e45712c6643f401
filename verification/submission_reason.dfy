/**
 * Why the exchange's submit button is disabled: a first-match priority chain
 * over seven guards, yielding one of eight translatable reasons or none.
 */
module SubmissionReason {
  import opened Wrappers
  import opened FixedPoint
  import opened ExchangeState
  import opened ExchangeSelectors

  datatype Reason =
    | FeeReclaimPeriod
    | SelectToken
    | SelectSynth
    | InsufficientBalance
    | SubmittingOrder
    | Approving
    | InsufficientLiquidity
    | EnterAmount

  const KeyPrefix: string := "exchange.summary-info.button."

  /** The translation key the presentation layer shows for a reason. */
  function MessageKey(r: Reason): (key: string)
    ensures |key| > |KeyPrefix| && key[..|KeyPrefix|] == KeyPrefix
  {
    KeyPrefix + match r
      case FeeReclaimPeriod => "fee-reclaim-period"
      case SelectToken => "select-token"
      case SelectSynth => "select-synth"
      case InsufficientBalance => "insufficient-balance"
      case SubmittingOrder => "submitting-order"
      case Approving => "approving"
      case InsufficientLiquidity => "insufficient-liquidity"
      case EnterAmount => "enter-amount"
  }

  /** Reads a translation key back into the reason it names, if any. */
  function ReasonOfKey(key: string): (r: Option<Reason>)
    ensures r.Some? ==> MessageKey(r.value) == key
  {
    if key == MessageKey(FeeReclaimPeriod) then Some(FeeReclaimPeriod)
    else if key == MessageKey(SelectToken) then Some(SelectToken)
    else if key == MessageKey(SelectSynth) then Some(SelectSynth)
    else if key == MessageKey(InsufficientBalance) then Some(InsufficientBalance)
    else if key == MessageKey(SubmittingOrder) then Some(SubmittingOrder)
    else if key == MessageKey(Approving) then Some(Approving)
    else if key == MessageKey(InsufficientLiquidity) then Some(InsufficientLiquidity)
    else if key == MessageKey(EnterAmount) then Some(EnterAmount)
    else None
  }

  /** The eight keys are pairwise distinct: every key reads back as its reason. */
  lemma MessageKeyRoundTrip(r: Reason)
    ensures ReasonOfKey(MessageKey(r)) == Some(r)
  {
  }

  /** The values the chain's combiner receives, in the order it receives them. */
  datatype ReasonInputs = ReasonInputs(
    txProvider: TxProvider,
    feeReclaimPeriod: int,
    bothSidesSelected: bool,
    insufficientBalance: bool,
    isSubmitting: bool,
    isApproving: bool,
    oneInchQuoteError: bool,
    isWalletConnected: bool,
    baseAmountWei: real,
    quoteAmountWei: real
  )

  /** The last, weakest guard: no wallet or a non-positive amount on either side. */
  predicate AmountMissing(i: ReasonInputs) {
    !i.isWalletConnected || i.baseAmountWei <= 0.0 || i.quoteAmountWei <= 0.0
  }

  /** Whether any of the seven guards fires. */
  predicate AnyGuard(i: ReasonInputs) {
    || i.feeReclaimPeriod > 0
    || !i.bothSidesSelected
    || i.insufficientBalance
    || i.isSubmitting
    || i.isApproving
    || i.oneInchQuoteError
    || AmountMissing(i)
  }

  /** The combiner of the chain, guard by guard in the source's order. */
  function DisabledReason(i: ReasonInputs): (r: Option<Reason>)
    ensures i.feeReclaimPeriod > 0 ==> r == Some(FeeReclaimPeriod)
    ensures i.feeReclaimPeriod <= 0 && !i.bothSidesSelected
            ==> r == Some(if i.txProvider == OneInch then SelectToken else SelectSynth)
    ensures r.None? <==> !AnyGuard(i)
  {
    if i.feeReclaimPeriod > 0 then Some(FeeReclaimPeriod)
    else if !i.bothSidesSelected then
      (if i.txProvider == OneInch then Some(SelectToken) else Some(SelectSynth))
    else if i.insufficientBalance then Some(InsufficientBalance)
    else if i.isSubmitting then Some(SubmittingOrder)
    else if i.isApproving then Some(Approving)
    else if i.oneInchQuoteError then Some(InsufficientLiquidity)
    else if AmountMissing(i) then Some(EnterAmount)
    else None
  }

  // ---------------------------------------------------------------------------
  // Reference definition: the chain as a list of guarded rules
  // ---------------------------------------------------------------------------

  datatype Rule = Rule(fires: bool, reason: Reason)

  /** The seven guards as rules, most significant first. */
  function Rules(i: ReasonInputs): (rules: seq<Rule>)
    ensures |rules| == 7
  {
    [ Rule(i.feeReclaimPeriod > 0, FeeReclaimPeriod),
      Rule(!i.bothSidesSelected, if i.txProvider == OneInch then SelectToken else SelectSynth),
      Rule(i.insufficientBalance, InsufficientBalance),
      Rule(i.isSubmitting, SubmittingOrder),
      Rule(i.isApproving, Approving),
      Rule(i.oneInchQuoteError, InsufficientLiquidity),
      Rule(AmountMissing(i), EnterAmount) ]
  }

  /** Rule `k` fires and no earlier rule does. */
  predicate FirstFiring(rules: seq<Rule>, k: int) {
    && 0 <= k < |rules|
    && rules[k].fires
    && forall j :: 0 <= j < k ==> !rules[j].fires
  }

  /** The reason of the first rule that fires, if any. */
  function FirstMatch(rules: seq<Rule>): (r: Option<Reason>)
    ensures r.None? <==> forall k :: 0 <= k < |rules| ==> !rules[k].fires
    ensures r.Some? ==> exists k :: FirstFiring(rules, k) && rules[k].reason == r.value
  {
    if |rules| == 0 then None
    else if rules[0].fires then
      assert FirstFiring(rules, 0);
      Some(rules[0].reason)
    else
      var r := FirstMatch(rules[1..]);
      if r.Some? then
        var k :| FirstFiring(rules[1..], k) && rules[1..][k].reason == r.value;
        assert FirstFiring(rules, k + 1);
        r
      else
        assert forall k :: 1 <= k < |rules| ==> rules[k] == rules[1..][k - 1];
        r
  }

  /** At most one rule is the first to fire, and its reason is the chain's result. */
  lemma FirstFiringDetermines(rules: seq<Rule>, k: int)
    requires FirstFiring(rules, k)
    ensures FirstMatch(rules) == Some(rules[k].reason)
  {
  }

  /** The if-chain of the source and the rule list agree on every input. */
  lemma ChainIsFirstMatch(i: ReasonInputs)
    ensures DisabledReason(i) == FirstMatch(Rules(i))
  {
    var rules := Rules(i);
    if i.feeReclaimPeriod > 0 { FirstFiringDetermines(rules, 0); }
    else if !i.bothSidesSelected { FirstFiringDetermines(rules, 1); }
    else if i.insufficientBalance { FirstFiringDetermines(rules, 2); }
    else if i.isSubmitting { FirstFiringDetermines(rules, 3); }
    else if i.isApproving { FirstFiringDetermines(rules, 4); }
    else if i.oneInchQuoteError { FirstFiringDetermines(rules, 5); }
    else if AmountMissing(i) { FirstFiringDetermines(rules, 6); }
  }

  /** Position of a reason's guard in the chain (both selection reasons share one). */
  function Rank(r: Reason): (k: nat)
    ensures k < 7
  {
    match r
    case FeeReclaimPeriod => 0
    case SelectToken => 1
    case SelectSynth => 1
    case InsufficientBalance => 2
    case SubmittingOrder => 3
    case Approving => 4
    case InsufficientLiquidity => 5
    case EnterAmount => 6
  }

  /**
   * Precedence: the reason given is the one whose guard fires while every
   * guard of higher priority is false; a weaker reason never masks a stronger.
   */
  lemma ReasonIsHighestFiringGuard(i: ReasonInputs, r: Reason)
    ensures DisabledReason(i) == Some(r) <==> FirstFiring(Rules(i), Rank(r)) && Rules(i)[Rank(r)].reason == r
  {
    var rules := Rules(i);
    ChainIsFirstMatch(i);
    if FirstFiring(rules, Rank(r)) && rules[Rank(r)].reason == r {
      FirstFiringDetermines(rules, Rank(r));
    }
    if DisabledReason(i) == Some(r) {
      var k :| FirstFiring(rules, k) && rules[k].reason == r;
      assert k == Rank(r);
    }
  }

  // ---------------------------------------------------------------------------
  // The selectors over a snapshot
  // ---------------------------------------------------------------------------

  function ReasonInputsOf(wei: Parser, s: Snapshot): (i: ReasonInputs) {
    ReasonInputs(
      s.exchange.txProvider,
      s.exchange.feeReclaimPeriod,
      BothSidesSelected(s),
      ExchangeSelectors.InsufficientBalance(wei, s),
      s.exchange.isSubmitting,
      IsApproving(s),
      s.exchange.oneInchQuoteError,
      s.isWalletConnected,
      BaseAmountWei(wei, s),
      QuoteAmountWei(wei, s))
  }

  function SubmissionDisabledReason(wei: Parser, s: Snapshot): (r: Option<Reason>)
    ensures s.exchange.feeReclaimPeriod > 0 ==> r == Some(FeeReclaimPeriod)
    ensures s.exchange.feeReclaimPeriod <= 0 && !BothSidesSelected(s) && s.exchange.txProvider == OneInch
            ==> r == Some(SelectToken)
    ensures s.exchange.feeReclaimPeriod <= 0 && !BothSidesSelected(s) && s.exchange.txProvider != OneInch
            ==> r == Some(SelectSynth)
  {
    DisabledReason(ReasonInputsOf(wei, s))
  }

  /** Submission is disabled exactly when one of the seven guards fires. */
  predicate IsSubmissionDisabled(wei: Parser, s: Snapshot)
    ensures IsSubmissionDisabled(wei, s) <==>
      || s.exchange.feeReclaimPeriod > 0
      || !BothSidesSelected(s)
      || ExchangeSelectors.InsufficientBalance(wei, s)
      || s.exchange.isSubmitting
      || IsApproving(s)
      || s.exchange.oneInchQuoteError
      || !s.isWalletConnected
      || BaseAmountWei(wei, s) <= 0.0
      || QuoteAmountWei(wei, s) <= 0.0
  {
    SubmissionDisabledReason(wei, s).Some?
  }

  /**
   * An active fee-reclaim lockout wins over everything, insufficient balance
   * included.
   */
  lemma FeeReclaimOverridesInsufficientBalance(wei: Parser, s: Snapshot)
    requires s.exchange.feeReclaimPeriod > 0
    requires ExchangeSelectors.InsufficientBalance(wei, s)
    ensures SubmissionDisabledReason(wei, s) == Some(FeeReclaimPeriod)
    ensures SubmissionDisabledReason(wei, s) != Some(InsufficientBalance)
  {
  }

  /** A fully entered, funded, idle trade on a connected wallet is enabled. */
  lemma ReadyTradeIsEnabled(wei: Parser, s: Snapshot)
    requires s.exchange.feeReclaimPeriod <= 0
    requires BothSidesSelected(s)
    requires QuoteAmountWei(wei, s) <= QuoteBalanceWei(wei, s)
    requires !s.exchange.isSubmitting && !s.exchange.approvalStatus.Loading?
    requires !s.exchange.oneInchQuoteError && s.isWalletConnected
    requires BaseAmountWei(wei, s) > 0.0 && QuoteAmountWei(wei, s) > 0.0
    ensures SubmissionDisabledReason(wei, s) == None
    ensures !IsSubmissionDisabled(wei, s)
  {
  }
}
