/** The foreign collaborators of the coordinator consumer, reduced to what the
    consumer hands them and what they hand back. What they compute is not
    modelled: each one answers through a function supplied when it is built,
    and each side effect is recorded in a log so that the consumer's contract
    can say whether, and with what arguments, it happened. */
module Externals {
  import opened Types

  /** The two fill-or-kill entry points of the 0x exchange that a quote can use. */
  datatype EntryPoint = MarketBuyOrdersFillOrKill | MarketSellOrdersFillOrKill

  /** A fill-or-kill call with its positional arguments, in the order the
      contract takes them: orders, fill amount, signatures. */
  datatype FillOrKillCall = FillOrKillCall(
    entryPoint: EntryPoint,
    orders: seq<SignedOrder>,
    fillAmount: int,
    signatures: seq<string>)

  /** The assertion library's two checks whose definitions lie outside the
      model (`isNumber` and `isBigNumber` are the type tests in Types). */
  datatype Assertions = Assertions(
    isValidSwapQuote: SwapQuote -> bool,
    isETHAddressHex: JsValue -> bool)

  /** The exchange contract wrapper, used only to ABI-encode calls. */
  class ExchangeContract {
    const address: Address
    /** `getABIEncodedTransactionData` of the wrapped call. */
    const abiEncoder: FillOrKillCall -> string

    constructor (address: Address, abiEncoder: FillOrKillCall -> string)
      ensures this.address == address && this.abiEncoder == abiEncoder
    {
      this.address := address;
      this.abiEncoder := abiEncoder;
    }
  }

  /** What the consumer asks the coordinator to do: the call, the current time
      in seconds, and the transaction options. */
  datatype CoordinatorRequest = CoordinatorRequest(
    call: FillOrKillCall,
    currentTimeSeconds: int,
    txData: TxData)

  /** The coordinator client. `relay(k, request)` is the answer the coordinator
      and the chain give to the k-th request sent through this client: a
      transaction hash, or the reason it was refused. */
  class CoordinatorClient {
    const address: Address
    const chainId: int
    const relay: (nat, CoordinatorRequest) -> Result<string, string>
    /** Every request submitted so far, oldest first. */
    var requests: seq<CoordinatorRequest>

    constructor (address: Address, chainId: int, relay: (nat, CoordinatorRequest) -> Result<string, string>)
      ensures this.address == address && this.chainId == chainId && this.relay == relay
      ensures requests == []
    {
      this.address := address;
      this.chainId := chainId;
      this.relay := relay;
      requests := [];
    }

    method MarketBuyOrdersFillOrKillAsync(
      orders: seq<SignedOrder>, makerAssetFillAmount: int, signatures: seq<string>,
      currentTimeSeconds: int, txData: TxData)
      returns (r: Result<string, string>)
      modifies this`requests
      ensures var request := CoordinatorRequest(
                FillOrKillCall(MarketBuyOrdersFillOrKill, orders, makerAssetFillAmount, signatures),
                currentTimeSeconds, txData);
              requests == old(requests) + [request] && r == relay(|old(requests)|, request)
    {
      var request := CoordinatorRequest(
        FillOrKillCall(MarketBuyOrdersFillOrKill, orders, makerAssetFillAmount, signatures),
        currentTimeSeconds, txData);
      r := relay(|requests|, request);
      requests := requests + [request];
    }

    method MarketSellOrdersFillOrKillAsync(
      orders: seq<SignedOrder>, takerAssetFillAmount: int, signatures: seq<string>,
      currentTimeSeconds: int, txData: TxData)
      returns (r: Result<string, string>)
      modifies this`requests
      ensures var request := CoordinatorRequest(
                FillOrKillCall(MarketSellOrdersFillOrKill, orders, takerAssetFillAmount, signatures),
                currentTimeSeconds, txData);
              requests == old(requests) + [request] && r == relay(|old(requests)|, request)
    {
      var request := CoordinatorRequest(
        FillOrKillCall(MarketSellOrdersFillOrKill, orders, takerAssetFillAmount, signatures),
        currentTimeSeconds, txData);
      r := relay(|requests|, request);
      requests := requests + [request];
    }
  }

  /** The connection to the chain. `takerAddressFor(k, opts)` is the answer the
      taker-address resolver gives on its k-th lookup through this provider:
      an address, or the reason none could be found. */
  class Provider {
    const takerAddressFor: (nat, SwapQuoteExecutionOpts) -> Result<Address, string>
    /** The options of every taker-address lookup so far, oldest first. */
    var lookups: seq<SwapQuoteExecutionOpts>

    constructor (takerAddressFor: (nat, SwapQuoteExecutionOpts) -> Result<Address, string>)
      ensures this.takerAddressFor == takerAddressFor && lookups == []
    {
      this.takerAddressFor := takerAddressFor;
      lookups := [];
    }
  }

  /** `swapQuoteConsumerUtils.getTakerAddressOrThrowAsync(provider, opts)`. */
  method GetTakerAddressOrThrow(provider: Provider, opts: SwapQuoteExecutionOpts)
    returns (r: Result<Address, string>)
    modifies provider`lookups
    ensures provider.lookups == old(provider.lookups) + [opts]
    ensures r == provider.takerAddressFor(|old(provider.lookups)|, opts)
  {
    r := provider.takerAddressFor(|provider.lookups|, opts);
    provider.lookups := provider.lookups + [opts];
  }
}
