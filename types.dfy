/** The values the swap quote consumer reads and produces: quotes, orders,
    execution options, the calldata record and the transaction options, plus
    just enough of JavaScript's runtime values to state the option checks and
    the `||` that picks the attached value. */
module Types {

  datatype Option<+T> = None | Some(value: T)

  datatype Result<+T, +E> = Success(value: T) | Failure(error: E)

  type Address = string

  /** A value as JavaScript sees it at run time. Execution options arrive as a
      `Partial<...>` object, so a field may be absent (`Undefined`) or hold a
      value of the wrong type; the checks in the consumer exist for that.
      Numbers are modelled as integers: fractions, NaN and infinities are not
      represented. */
  datatype JsValue =
    | Undefined
    | Null
    | Bool(b: bool)
    | Number(n: int)
    | Str(s: string)
    | BigNumber(amount: int)

  /** JavaScript truthiness. Every object, a BigNumber of value zero included,
      is truthy. */
  predicate Truthy(v: JsValue)
  {
    match v
    case Undefined => false
    case Null => false
    case Bool(b) => b
    case Number(n) => n != 0
    case Str(s) => s != ""
    case BigNumber(_) => true
  }

  /** JavaScript `a || b`: the left operand when it is truthy, else the right. */
  function Or(a: JsValue, b: JsValue): JsValue
  {
    if Truthy(a) then a else b
  }

  /** `assert.isNumber` and `assert.isBigNumber`: run-time type tests. */
  predicate IsNumber(v: JsValue) { v.Number? }

  predicate IsBigNumber(v: JsValue) { v.BigNumber? }

  /** A signed 0x order. The consumer only ever reads `signature`. */
  datatype SignedOrder = SignedOrder(
    makerAddress: Address,
    takerAddress: Address,
    makerAssetAmount: int,
    takerAssetAmount: int,
    expirationTimeSeconds: int,
    salt: int,
    makerAssetData: string,
    takerAssetData: string,
    signature: string)

  datatype MarketOperation = Sell | Buy

  /** The cost breakdown a quote carries; amounts are in base units (wei for
      the protocol fee). */
  datatype SwapQuoteInfo = SwapQuoteInfo(
    makerAssetAmount: int,
    takerAssetAmount: int,
    protocolFeeInWeiAmount: int)

  /** A quote is either a market sell (it fixes how much taker asset is sold)
      or a market buy (it fixes how much maker asset is bought). */
  datatype SwapQuote =
    | MarketSellSwapQuote(
        orders: seq<SignedOrder>,
        takerAssetFillAmount: int,
        gasPrice: int,
        bestCaseQuoteInfo: SwapQuoteInfo,
        worstCaseQuoteInfo: SwapQuoteInfo)
    | MarketBuySwapQuote(
        orders: seq<SignedOrder>,
        makerAssetFillAmount: int,
        gasPrice: int,
        bestCaseQuoteInfo: SwapQuoteInfo,
        worstCaseQuoteInfo: SwapQuoteInfo)
  {
    /** The quote's `type` tag. */
    function Type(): MarketOperation
    {
      if MarketBuySwapQuote? then Buy else Sell
    }
  }

  datatype ContractAddresses = ContractAddresses(
    exchange: Address,
    coordinator: Address,
    erc20Proxy: Address)

  /** What `getCalldataOrThrowAsync` hands back. */
  datatype CalldataInfo = CalldataInfo(
    calldataHexString: string,
    ethAmount: int,
    toAddress: Address,
    allowanceTarget: Address)

  /** `Partial<SwapQuoteGetOutputOpts>`: accepted and ignored. */
  type SwapQuoteGetOutputOpts = map<string, JsValue>

  /** `Partial<SwapQuoteExecutionOpts>`: each field may be absent. */
  datatype SwapQuoteExecutionOpts = SwapQuoteExecutionOpts(
    takerAddress: JsValue,
    gasLimit: JsValue,
    ethAmount: JsValue)

  /** The transaction options handed to the coordinator client. */
  datatype TxData = TxData(
    from: Address,
    gas: JsValue,
    gasPrice: int,
    value: JsValue)

  /** The failures the consumer raises or lets through. */
  datatype SwapQuoteConsumerError =
    | InvalidQuote                    // assert.isValidSwapQuote('quote', ...)
    | InvalidTakerAddress             // assert.isETHAddressHex('takerAddress', ...)
    | InvalidGasLimit                 // assert.isNumber('gasLimit', ...)
    | InvalidEthAmount                // assert.isBigNumber('ethAmount', ...)
    | NoTakerAddress(reason: string)  // thrown by the taker-address resolver
    | SubmissionFailed(reason: string) // thrown by the coordinator client
}
