/** The coordinator swap quote consumer: it turns a swap quote into either the
    calldata of a fill-or-kill exchange call, or a fill-or-kill request
    submitted through the coordinator client. */
module QuoteConsumers {
  import opened Types
  import opened Externals

  /** The orders' signatures, position for position (`_.map(orders, o => o.signature)`). */
  function Signatures(orders: seq<SignedOrder>): (sigs: seq<string>)
    ensures |sigs| == |orders|
    ensures forall i :: 0 <= i < |orders| ==> sigs[i] == orders[i].signature
  {
    if orders == [] then [] else [orders[0].signature] + Signatures(orders[1..])
  }

  /** The fill-or-kill call a quote stands for: a buy quote buys exactly its
      maker asset fill amount, a sell quote sells exactly its taker asset fill
      amount. Calldata building and execution are both proved to use it. */
  function MarketCall(quote: SwapQuote): (call: FillOrKillCall)
    ensures call.orders == quote.orders && call.signatures == Signatures(quote.orders)
    ensures quote.Type() == Buy ==>
              call.entryPoint == MarketBuyOrdersFillOrKill && call.fillAmount == quote.makerAssetFillAmount
    ensures quote.Type() == Sell ==>
              call.entryPoint == MarketSellOrdersFillOrKill && call.fillAmount == quote.takerAssetFillAmount
  {
    match quote
    case MarketBuySwapQuote(orders, makerAssetFillAmount, _, _, _) =>
      FillOrKillCall(MarketBuyOrdersFillOrKill, orders, makerAssetFillAmount, Signatures(orders))
    case MarketSellSwapQuote(orders, takerAssetFillAmount, _, _, _) =>
      FillOrKillCall(MarketSellOrdersFillOrKill, orders, takerAssetFillAmount, Signatures(orders))
  }

  /** Every supplied execution option has the right form; absent ones are not checked. */
  predicate ExecutionOptsWellFormed(assertions: Assertions, opts: SwapQuoteExecutionOpts)
  {
    && (opts.takerAddress == Undefined || assertions.isETHAddressHex(opts.takerAddress))
    && (opts.gasLimit == Undefined || IsNumber(opts.gasLimit))
    && (opts.ethAmount == Undefined || IsBigNumber(opts.ethAmount))
  }

  /** The error the option checks raise, in their fixed order: taker address,
      then gas limit, then ETH amount; `None` when all of them pass. */
  function CheckExecutionOpts(assertions: Assertions, opts: SwapQuoteExecutionOpts): (r: Option<SwapQuoteConsumerError>)
    ensures r == None <==> ExecutionOptsWellFormed(assertions, opts)
    ensures r == Some(InvalidTakerAddress) <==>
              opts.takerAddress != Undefined && !assertions.isETHAddressHex(opts.takerAddress)
    ensures r == Some(InvalidGasLimit) <==>
              (opts.takerAddress == Undefined || assertions.isETHAddressHex(opts.takerAddress))
              && opts.gasLimit != Undefined && !IsNumber(opts.gasLimit)
    ensures r == Some(InvalidEthAmount) <==>
              (opts.takerAddress == Undefined || assertions.isETHAddressHex(opts.takerAddress))
              && (opts.gasLimit == Undefined || IsNumber(opts.gasLimit))
              && opts.ethAmount != Undefined && !IsBigNumber(opts.ethAmount)
  {
    if opts.takerAddress != Undefined && !assertions.isETHAddressHex(opts.takerAddress) then
      Some(InvalidTakerAddress)
    else if opts.gasLimit != Undefined && !IsNumber(opts.gasLimit) then
      Some(InvalidGasLimit)
    else if opts.ethAmount != Undefined && !IsBigNumber(opts.ethAmount) then
      Some(InvalidEthAmount)
    else
      None
  }

  /** The value attached to an executed swap: the caller's ETH amount whenever
      one is supplied, otherwise the quote's worst-case protocol fee. */
  function IntendedValue(quote: SwapQuote, opts: SwapQuoteExecutionOpts): JsValue
  {
    if opts.ethAmount != Undefined then opts.ethAmount
    else BigNumber(quote.worstCaseQuoteInfo.protocolFeeInWeiAmount)
  }

  /** Once the options pass their checks, `ethAmount || protocolFee` attaches
      the supplied amount even when it is zero: a BigNumber is an object, and
      objects are truthy. */
  lemma AttachedValueIsOverrideOrFee(assertions: Assertions, quote: SwapQuote, opts: SwapQuoteExecutionOpts)
    requires CheckExecutionOpts(assertions, opts) == None
    ensures Or(opts.ethAmount, BigNumber(quote.worstCaseQuoteInfo.protocolFeeInWeiAmount))
            == IntendedValue(quote, opts)
  {
    assert ExecutionOptsWellFormed(assertions, opts);
  }

  class CoordinatorSwapQuoteConsumer {
    const provider: Provider
    const chainId: int
    const coordinatorClient: CoordinatorClient
    const exchangeContract: ExchangeContract
    const contractAddresses: ContractAddresses
    const assertions: Assertions

    /** The coordinator client and the exchange wrapper are built from the
        configured addresses; `abiEncoder` and `relay` stand for the foreign
        libraries behind them. */
    constructor (
      provider: Provider, contractAddresses: ContractAddresses, chainId: int, assertions: Assertions,
      abiEncoder: FillOrKillCall -> string, relay: (nat, CoordinatorRequest) -> Result<string, string>)
      ensures this.provider == provider && this.chainId == chainId
      ensures this.contractAddresses == contractAddresses && this.assertions == assertions
      ensures fresh(coordinatorClient) && coordinatorClient.address == contractAddresses.coordinator
      ensures coordinatorClient.chainId == chainId && coordinatorClient.relay == relay
      ensures coordinatorClient.requests == []
      ensures fresh(exchangeContract) && exchangeContract.address == contractAddresses.exchange
      ensures exchangeContract.abiEncoder == abiEncoder
    {
      this.provider := provider;
      this.chainId := chainId;
      this.contractAddresses := contractAddresses;
      this.assertions := assertions;
      this.coordinatorClient := new CoordinatorClient(contractAddresses.coordinator, chainId, relay);
      this.exchangeContract := new ExchangeContract(contractAddresses.exchange, abiEncoder);
    }

    /** `getCalldataOrThrowAsync`: an invalid quote is refused; otherwise the
        record holds the encoding of the quote's fill-or-kill call, the
        protocol fee as ETH amount, the coordinator as destination and the
        ERC-20 proxy as allowance target. `opts` is not read. */
    function GetCalldataOrThrow(quote: SwapQuote, opts: SwapQuoteGetOutputOpts): (r: Result<CalldataInfo, SwapQuoteConsumerError>)
      ensures r.Failure? <==> !assertions.isValidSwapQuote(quote)
      ensures r.Failure? ==> r.error == InvalidQuote
      ensures r.Success? ==>
                && r.value.calldataHexString == exchangeContract.abiEncoder(MarketCall(quote))
                && r.value.ethAmount == quote.worstCaseQuoteInfo.protocolFeeInWeiAmount
                && r.value.toAddress == contractAddresses.coordinator
                && r.value.allowanceTarget == contractAddresses.erc20Proxy
    {
      if !assertions.isValidSwapQuote(quote) then Failure(InvalidQuote)
      else
        var orders := quote.orders;
        var signatures := Signatures(orders);
        var calldataHexString :=
          if quote.Type() == Buy then
            exchangeContract.abiEncoder(
              FillOrKillCall(MarketBuyOrdersFillOrKill, orders, quote.makerAssetFillAmount, signatures))
          else
            exchangeContract.abiEncoder(
              FillOrKillCall(MarketSellOrdersFillOrKill, orders, quote.takerAssetFillAmount, signatures));
        Success(CalldataInfo(
          calldataHexString,
          quote.worstCaseQuoteInfo.protocolFeeInWeiAmount,
          contractAddresses.coordinator,
          contractAddresses.erc20Proxy))
    }

    /** The quote and the options pass every check that precedes the taker lookup. */
    predicate Admits(quote: SwapQuote, opts: SwapQuoteExecutionOpts)
    {
      assertions.isValidSwapQuote(quote) && CheckExecutionOpts(assertions, opts) == None
    }

    /** The request an admitted execution submits once the taker is known. */
    function IntendedRequest(quote: SwapQuote, opts: SwapQuoteExecutionOpts, taker: Address, nowMilliseconds: int): CoordinatorRequest
    {
      CoordinatorRequest(
        MarketCall(quote),
        nowMilliseconds / 1000,
        TxData(taker, opts.gasLimit, quote.gasPrice, IntendedValue(quote, opts)))
    }

    /** `executeSwapQuoteOrThrowAsync`, with the wall clock passed in as
        `nowMilliseconds`. The quote and the options are checked first; a
        failed check ends the call before the taker lookup and before any
        submission. Then the taker is resolved, and the quote's fill-or-kill
        call goes to the coordinator with the resolved taker, the caller's gas
        limit, the quote's gas price and the attached value; the coordinator's
        answer is returned. */
    method ExecuteSwapQuoteOrThrow(quote: SwapQuote, opts: SwapQuoteExecutionOpts, nowMilliseconds: int)
      returns (r: Result<string, SwapQuoteConsumerError>)
      modifies provider`lookups, coordinatorClient`requests
      ensures !assertions.isValidSwapQuote(quote) ==> r == Failure(InvalidQuote)
      ensures assertions.isValidSwapQuote(quote) && CheckExecutionOpts(assertions, opts).Some? ==>
                r == Failure(CheckExecutionOpts(assertions, opts).value)
      ensures !Admits(quote, opts) ==>
                provider.lookups == old(provider.lookups)
                && coordinatorClient.requests == old(coordinatorClient.requests)
      ensures Admits(quote, opts) ==> provider.lookups == old(provider.lookups) + [opts]
      ensures Admits(quote, opts) ==>
                var taker := provider.takerAddressFor(|old(provider.lookups)|, opts);
                taker.Failure? ==>
                  r == Failure(NoTakerAddress(taker.error))
                  && coordinatorClient.requests == old(coordinatorClient.requests)
      ensures Admits(quote, opts) ==>
                var taker := provider.takerAddressFor(|old(provider.lookups)|, opts);
                taker.Success? ==>
                  var request := IntendedRequest(quote, opts, taker.value, nowMilliseconds);
                  var answer := coordinatorClient.relay(|old(coordinatorClient.requests)|, request);
                  && coordinatorClient.requests == old(coordinatorClient.requests) + [request]
                  && r == (if answer.Success? then Success(answer.value) else Failure(SubmissionFailed(answer.error)))
    {
      if !assertions.isValidSwapQuote(quote) {
        return Failure(InvalidQuote);
      }
      var takerAddress, gasLimit, ethAmount := opts.takerAddress, opts.gasLimit, opts.ethAmount;
      if takerAddress != Undefined && !assertions.isETHAddressHex(takerAddress) {
        return Failure(InvalidTakerAddress);
      }
      if gasLimit != Undefined && !IsNumber(gasLimit) {
        return Failure(InvalidGasLimit);
      }
      if ethAmount != Undefined && !IsBigNumber(ethAmount) {
        return Failure(InvalidEthAmount);
      }
      var orders, gasPrice := quote.orders, quote.gasPrice;
      var signatures := Signatures(orders);

      var taker := GetTakerAddressOrThrow(provider, opts);
      if taker.Failure? {
        return Failure(NoTakerAddress(taker.error));
      }
      var finalTakerAddress := taker.value;
      var value := Or(ethAmount, BigNumber(quote.worstCaseQuoteInfo.protocolFeeInWeiAmount));
      AttachedValueIsOverrideOrFee(assertions, quote, opts);
      // Math.floor of a millisecond count over 1000: Dafny's `/` by a positive
      // divisor rounds down, negative dividends included.
      var currentTimeSeconds := nowMilliseconds / 1000;
      var txData := TxData(finalTakerAddress, gasLimit, gasPrice, value);
      var txHash;
      if quote.Type() == Buy {
        txHash := coordinatorClient.MarketBuyOrdersFillOrKillAsync(
          orders, quote.makerAssetFillAmount, signatures, currentTimeSeconds, txData);
      } else {
        txHash := coordinatorClient.MarketSellOrdersFillOrKillAsync(
          orders, quote.takerAssetFillAmount, signatures, currentTimeSeconds, txData);
      }
      if txHash.Failure? {
        return Failure(SubmissionFailed(txHash.error));
      }
      return Success(txHash.value);
    }
  }

  /** The calldata does not depend on the output options. */
  lemma CalldataIgnoresOutputOpts(
    consumer: CoordinatorSwapQuoteConsumer, quote: SwapQuote, opts1: SwapQuoteGetOutputOpts, opts2: SwapQuoteGetOutputOpts)
    ensures consumer.GetCalldataOrThrow(quote, opts1) == consumer.GetCalldataOrThrow(quote, opts2)
  {
  }

  /** Execution submits the very call whose encoding calldata building returns:
      the same entry point, fill amount, orders and signatures for a quote of
      either direction. */
  lemma ExecutionSubmitsTheCalldataCall(
    consumer: CoordinatorSwapQuoteConsumer, quote: SwapQuote, outputOpts: SwapQuoteGetOutputOpts,
    opts: SwapQuoteExecutionOpts, taker: Address, nowMilliseconds: int)
    requires consumer.Admits(quote, opts)
    ensures consumer.GetCalldataOrThrow(quote, outputOpts).Success?
    ensures consumer.GetCalldataOrThrow(quote, outputOpts).value.calldataHexString
            == consumer.exchangeContract.abiEncoder(consumer.IntendedRequest(quote, opts, taker, nowMilliseconds).call)
  {
  }
}
